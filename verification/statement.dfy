/**
 The statement body assembled by GenerateStatementData: invoice rows, then
 the aging row when requested (both built by getInvoices), then the payment
 rows when requested (appended by handle).
 */
module Statement {
  import opened Records
  import opened Seqs
  import opened Selection
  import opened Aging
  import opened Lines

  /** The aging part of getInvoices: one row over the listed invoices, or none. */
  function AgingRows(opts: Options, listed: seq<Invoice>): seq<LineItem>
  {
    if opts.showAging then [AgingLine(AgingBuckets(listed))] else []
  }

  /** What getInvoices returns: the invoice rows followed by the aging part. */
  function InvoiceSection(opts: Options, invoices: seq<Invoice>): (r: seq<LineItem>)
    ensures var listed := SelectInvoices(opts, invoices);
            && |r| == |listed| + (if opts.showAging then 1 else 0)
            && (forall k :: 0 <= k < |listed| ==> r[k] == InvoiceLine(listed[k]))
            && (opts.showAging ==> r[|listed|] == AgingLine(AgingBuckets(listed)))
  {
    var listed := SelectInvoices(opts, invoices);
    InvoiceLines(listed) + AgingRows(opts, listed)
  }

  /** What getPayments returns: the k-th row is the row of the k-th payment
      dated inside the window. */
  function PaymentSection(opts: Options, payments: seq<Payment>): (r: seq<LineItem>)
    ensures var paid := SelectPayments(opts, payments);
            && |r| == |paid|
            && (forall k :: 0 <= k < |paid| ==> r[k] == PaymentLine(paid[k]))
  {
    PaymentLines(SelectPayments(opts, payments))
  }

  /** The payment part of handle: getPayments' rows, or none. */
  function PaymentRows(opts: Options, payments: seq<Payment>): seq<LineItem>
  {
    if opts.showPayments then PaymentSection(opts, payments) else []
  }

  /** The statement body produced by handle. */
  function StatementLines(opts: Options, invoices: seq<Invoice>, payments: seq<Payment>): (r: seq<LineItem>)
    ensures |r| == |SelectInvoices(opts, invoices)| + (if opts.showAging then 1 else 0)
                   + (if opts.showPayments then |SelectPayments(opts, payments)| else 0)
  {
    InvoiceSection(opts, invoices) + PaymentRows(opts, payments)
  }

  function HasType(t: int): LineItem -> bool
  {
    (l: LineItem) => l.typeId == t
  }

  /** The number of rows of type `t`. */
  function CountOfType(lines: seq<LineItem>, t: int): nat
  {
    |Filter(lines, HasType(t))|
  }

  /** Position of a row kind in the statement: invoices, aging, payments. */
  function SectionRank(l: LineItem): int
  {
    if l.typeId == LINE_TYPE_INVOICE then 0
    else if l.typeId == LINE_TYPE_AGING then 1
    else 2
  }

  /** The statement splits into its three parts. */
  lemma StatementParts(opts: Options, invoices: seq<Invoice>, payments: seq<Payment>)
    ensures StatementLines(opts, invoices, payments) ==
      InvoiceLines(SelectInvoices(opts, invoices)) + AgingRows(opts, SelectInvoices(opts, invoices))
      + PaymentRows(opts, payments)
  {
  }

  /** Indexing into three concatenated parts. */
  lemma ThreePartIndex<T>(a: seq<T>, b: seq<T>, c: seq<T>)
    ensures forall k :: 0 <= k < |a| ==> (a + b + c)[k] == a[k]
    ensures forall k :: 0 <= k < |b| ==> (a + b + c)[|a| + k] == b[k]
    ensures forall k :: 0 <= k < |c| ==> (a + b + c)[|a| + |b| + k] == c[k]
  {
  }

  /** The k-th row is the row of the k-th listed invoice. */
  lemma InvoiceRowAt(opts: Options, invoices: seq<Invoice>, payments: seq<Payment>, k: int)
    requires 0 <= k < |SelectInvoices(opts, invoices)|
    ensures StatementLines(opts, invoices, payments)[k] == InvoiceLine(SelectInvoices(opts, invoices)[k])
  {
    var listed := SelectInvoices(opts, invoices);
    StatementParts(opts, invoices, payments);
    ThreePartIndex(InvoiceLines(listed), AgingRows(opts, listed), PaymentRows(opts, payments));
  }

  /** With aging requested, the aging row follows the invoice rows. */
  lemma AgingRowAt(opts: Options, invoices: seq<Invoice>, payments: seq<Payment>)
    requires opts.showAging
    ensures var listed := SelectInvoices(opts, invoices);
            StatementLines(opts, invoices, payments)[|listed|] == AgingLine(AgingBuckets(listed))
  {
    var listed := SelectInvoices(opts, invoices);
    StatementParts(opts, invoices, payments);
    ThreePartIndex(InvoiceLines(listed), AgingRows(opts, listed), PaymentRows(opts, payments));
  }

  /** With payments requested, the k-th payment row follows the invoice and
      aging rows and is the row of the k-th payment in the window. */
  lemma PaymentRowAt(opts: Options, invoices: seq<Invoice>, payments: seq<Payment>, k: int)
    requires opts.showPayments
    requires 0 <= k < |SelectPayments(opts, payments)|
    ensures var n := |SelectInvoices(opts, invoices)| + (if opts.showAging then 1 else 0);
            StatementLines(opts, invoices, payments)[n + k] == PaymentLine(SelectPayments(opts, payments)[k])
  {
    var listed := SelectInvoices(opts, invoices);
    StatementParts(opts, invoices, payments);
    ThreePartIndex(InvoiceLines(listed), AgingRows(opts, listed), PaymentRows(opts, payments));
  }

  /** Where each row sits: the k-th invoice row is built from the k-th listed
      invoice, the aging row follows the invoice rows, and the k-th payment
      row, built from the k-th listed payment, follows both. */
  lemma StatementLayout(opts: Options, invoices: seq<Invoice>, payments: seq<Payment>)
    ensures var r := StatementLines(opts, invoices, payments);
            var listed := SelectInvoices(opts, invoices);
            var paid := SelectPayments(opts, payments);
            var aging := if opts.showAging then 1 else 0;
            && (forall k :: 0 <= k < |listed| ==> r[k] == InvoiceLine(listed[k]))
            && (opts.showAging ==> r[|listed|] == AgingLine(AgingBuckets(listed)))
            && (opts.showPayments ==>
                  forall k :: 0 <= k < |paid| ==> r[|listed| + aging + k] == PaymentLine(paid[k]))
  {
    forall k | 0 <= k < |SelectInvoices(opts, invoices)| {
      InvoiceRowAt(opts, invoices, payments, k);
    }
    if opts.showAging {
      AgingRowAt(opts, invoices, payments);
    }
    if opts.showPayments {
      forall k | 0 <= k < |SelectPayments(opts, payments)| {
        PaymentRowAt(opts, invoices, payments, k);
      }
    }
  }

  /** In a run of rows that all have type `t0`, the rows of type `t` are all
      of them or none. */
  lemma {:induction false} UniformTypeCount(lines: seq<LineItem>, t0: int, t: int)
    requires forall i :: 0 <= i < |lines| ==> lines[i].typeId == t0
    ensures CountOfType(lines, t) == if t == t0 then |lines| else 0
  {
    if t == t0 {
      FilterAll(lines, HasType(t));
    } else {
      FilterNone(lines, HasType(t));
    }
  }

  /** Counting rows of one type distributes over the three parts. */
  lemma ThreePartCount(a: seq<LineItem>, b: seq<LineItem>, c: seq<LineItem>, t: int)
    ensures CountOfType(a + b + c, t) == CountOfType(a, t) + CountOfType(b, t) + CountOfType(c, t)
  {
    FilterAppend(a + b, c, HasType(t));
    FilterAppend(a, b, HasType(t));
  }

  /** Counts of type `t` in each of the three parts. */
  lemma PartCounts(opts: Options, invoices: seq<Invoice>, payments: seq<Payment>, t: int)
    ensures var listed := SelectInvoices(opts, invoices);
            && CountOfType(InvoiceLines(listed), t) == (if t == LINE_TYPE_INVOICE then |listed| else 0)
            && CountOfType(AgingRows(opts, listed), t)
               == (if t == LINE_TYPE_AGING && opts.showAging then 1 else 0)
            && CountOfType(PaymentRows(opts, payments), t)
               == (if t == LINE_TYPE_PAYMENT && opts.showPayments then |SelectPayments(opts, payments)| else 0)
  {
    var listed := SelectInvoices(opts, invoices);
    UniformTypeCount(InvoiceLines(listed), LINE_TYPE_INVOICE, t);
    UniformTypeCount(AgingRows(opts, listed), LINE_TYPE_AGING, t);
    UniformTypeCount(PaymentRows(opts, payments), LINE_TYPE_PAYMENT, t);
  }

  lemma TypeCount(opts: Options, invoices: seq<Invoice>, payments: seq<Payment>, t: int)
    ensures CountOfType(StatementLines(opts, invoices, payments), t) ==
      (if t == LINE_TYPE_INVOICE then |SelectInvoices(opts, invoices)| else 0)
      + (if t == LINE_TYPE_AGING && opts.showAging then 1 else 0)
      + (if t == LINE_TYPE_PAYMENT && opts.showPayments then |SelectPayments(opts, payments)| else 0)
  {
    var listed := SelectInvoices(opts, invoices);
    StatementParts(opts, invoices, payments);
    ThreePartCount(InvoiceLines(listed), AgingRows(opts, listed), PaymentRows(opts, payments), t);
    PartCounts(opts, invoices, payments, t);
  }

  /** One invoice row per listed invoice. */
  lemma InvoiceRowCount(opts: Options, invoices: seq<Invoice>, payments: seq<Payment>)
    ensures CountOfType(StatementLines(opts, invoices, payments), LINE_TYPE_INVOICE)
            == |SelectInvoices(opts, invoices)|
  {
    TypeCount(opts, invoices, payments, LINE_TYPE_INVOICE);
  }

  /** Exactly one aging row when aging is requested, none otherwise. */
  lemma AgingRowCount(opts: Options, invoices: seq<Invoice>, payments: seq<Payment>)
    ensures CountOfType(StatementLines(opts, invoices, payments), LINE_TYPE_AGING)
            == if opts.showAging then 1 else 0
  {
    TypeCount(opts, invoices, payments, LINE_TYPE_AGING);
  }

  /** One payment row per payment dated in the window when payments are
      requested, none otherwise. */
  lemma PaymentRowCount(opts: Options, invoices: seq<Invoice>, payments: seq<Payment>)
    ensures CountOfType(StatementLines(opts, invoices, payments), LINE_TYPE_PAYMENT)
            == if opts.showPayments then |SelectPayments(opts, payments)| else 0
  {
    TypeCount(opts, invoices, payments, LINE_TYPE_PAYMENT);
  }

  /** The rank of a row of three uniformly typed runs, by position. */
  lemma ThreePartRank(a: seq<LineItem>, b: seq<LineItem>, c: seq<LineItem>, i: int)
    requires forall k :: 0 <= k < |a| ==> a[k].typeId == LINE_TYPE_INVOICE
    requires forall k :: 0 <= k < |b| ==> b[k].typeId == LINE_TYPE_AGING
    requires forall k :: 0 <= k < |c| ==> c[k].typeId == LINE_TYPE_PAYMENT
    requires 0 <= i < |a + b + c|
    ensures SectionRank((a + b + c)[i]) == if i < |a| then 0 else if i < |a| + |b| then 1 else 2
  {
    if i < |a| {
      assert (a + b + c)[i] == a[i];
    } else if i < |a| + |b| {
      assert (a + b + c)[i] == b[i - |a|];
    } else {
      assert (a + b + c)[i] == c[i - |a| - |b|];
    }
  }

  /** The section rank of every row, by position. */
  lemma RankAt(opts: Options, invoices: seq<Invoice>, payments: seq<Payment>, i: int)
    requires 0 <= i < |StatementLines(opts, invoices, payments)|
    ensures var n := |SelectInvoices(opts, invoices)|;
            var a := if opts.showAging then 1 else 0;
            SectionRank(StatementLines(opts, invoices, payments)[i]) ==
              if i < n then 0 else if i < n + a then 1 else 2
  {
    var listed := SelectInvoices(opts, invoices);
    var aging := AgingRows(opts, listed);
    var paid := PaymentRows(opts, payments);
    assert forall k :: 0 <= k < |aging| ==> aging[k].typeId == LINE_TYPE_AGING;
    assert forall k :: 0 <= k < |paid| ==> paid[k].typeId == LINE_TYPE_PAYMENT;
    StatementParts(opts, invoices, payments);
    ThreePartRank(InvoiceLines(listed), aging, paid, i);
  }

  /** Rows are grouped, never interleaved: every invoice row precedes the
      aging row, which precedes every payment row. */
  lemma StatementSectionOrder(opts: Options, invoices: seq<Invoice>, payments: seq<Payment>)
    ensures var r := StatementLines(opts, invoices, payments);
            forall i, j :: 0 <= i < j < |r| ==> SectionRank(r[i]) <= SectionRank(r[j])
  {
    var r := StatementLines(opts, invoices, payments);
    forall i, j | 0 <= i < j < |r| ensures SectionRank(r[i]) <= SectionRank(r[j]) {
      RankAt(opts, invoices, payments, i);
      RankAt(opts, invoices, payments, j);
    }
  }

  /** With invoices arriving in ascending date order, the invoice rows are in
      ascending order of the date they show. */
  lemma StatementInvoiceDatesAscending(opts: Options, invoices: seq<Invoice>, payments: seq<Payment>)
    requires SortedBy(invoices, InvoiceDateOf)
    ensures var r := StatementLines(opts, invoices, payments);
            var n := |SelectInvoices(opts, invoices)|;
            && (forall i :: 0 <= i < n ==> r[i].customValue1.Day?)
            && (forall i, j :: 0 <= i < j < n ==> r[i].customValue1.day <= r[j].customValue1.day)
  {
    SelectionKeepsDateOrder(opts, invoices);
    StatementLayout(opts, invoices, payments);
  }

  /** The fields of the aging row over a listing, as group totals. */
  lemma AgingLineTotals(listed: seq<Invoice>)
    ensures var row := AgingLine(AgingBuckets(listed));
            && row.typeId == LINE_TYPE_AGING
            && row.productKey == Money(GroupTotal(listed, Current))
            && row.notes == Money(GroupTotal(listed, Days30))
            && row.customValue1 == Money(GroupTotal(listed, Days90))
            && row.cost == GroupTotal(listed, Days120)
  {
    var b := AgingBuckets(listed);
    AgingLineDropsSixtyDays(b, 0);
    assert BucketOf(b, Current) == GroupTotal(listed, Current);
    assert BucketOf(b, Days30) == GroupTotal(listed, Days30);
    assert BucketOf(b, Days90) == GroupTotal(listed, Days90);
    assert BucketOf(b, Days120) == GroupTotal(listed, Days120);
  }

  /** The aging row sums over the listed invoices only: each of its fields is
      the total requested amount of the listed invoices of one age group. */
  lemma AgingRowTotals(opts: Options, invoices: seq<Invoice>, payments: seq<Payment>)
    requires opts.showAging
    ensures var r := StatementLines(opts, invoices, payments);
            var listed := SelectInvoices(opts, invoices);
            var row := r[|listed|];
            && row.typeId == LINE_TYPE_AGING
            && row.productKey == Money(GroupTotal(listed, Current))
            && row.notes == Money(GroupTotal(listed, Days30))
            && row.customValue1 == Money(GroupTotal(listed, Days90))
            && row.cost == GroupTotal(listed, Days120)
  {
    StatementLayout(opts, invoices, payments);
    AgingLineTotals(SelectInvoices(opts, invoices));
  }

  /** The 60-day bucket is lost: removing every 60-day invoice from the
      listing leaves the aging row unchanged. */
  lemma AgingRowIgnoresSixtyDayInvoices(listed: seq<Invoice>)
    ensures AgingLine(AgingBuckets(Filter(listed, NotInGroup(Days60)))) == AgingLine(AgingBuckets(listed))
  {
    var rest := Filter(listed, NotInGroup(Days60));
    AgingLineTotals(listed);
    AgingLineTotals(rest);
    DroppingGroupKeepsOtherTotals(listed, Days60, Current);
    DroppingGroupKeepsOtherTotals(listed, Days60, Days30);
    DroppingGroupKeepsOtherTotals(listed, Days60, Days90);
    DroppingGroupKeepsOtherTotals(listed, Days60, Days120);
    AgingLineEquality(AgingBuckets(listed), AgingBuckets(rest));
  }

  /** A client with no invoices and no payments gets an empty statement, or
      a single all-zero aging row when aging is requested. */
  lemma EmptyClientStatement(opts: Options)
    ensures StatementLines(opts, [], []) == if opts.showAging then [AgingLine(NoBuckets)] else []
  {
    var listed := SelectInvoices(opts, []);
    assert listed == [];
    assert PaymentRows(opts, []) == [];
    assert StatementLines(opts, [], []) == InvoiceSection(opts, []);
  }

  /** One paid invoice in the window and its payment: exactly two rows, the
      invoice row (amount 100 in the notes, balance 0 as cost) then the
      payment row (the net 100 as cost). */
  lemma PaidInvoiceWithPaymentExample()
    ensures var opts := Options(INVOICE_STATUS_PAID, 10, 20, true, false);
            var inv := Invoice("0001", 15, None, 100, 0, INVOICE_STATUS_PAID, Current, 0);
            var pay := Payment("0001", 16, "Cash", 100);
            var r := StatementLines(opts, [inv], [pay]);
            && |r| == 2
            && r[0].typeId == LINE_TYPE_INVOICE && r[0].cost == 0 && r[0].notes == Money(100)
            && r[1].typeId == LINE_TYPE_PAYMENT && r[1].cost == 100
  {
    var opts := Options(INVOICE_STATUS_PAID, 10, 20, true, false);
    var inv := Invoice("0001", 15, None, 100, 0, INVOICE_STATUS_PAID, Current, 0);
    var pay := Payment("0001", 16, "Cash", 100);
    FilterAll([inv], InvoiceSelector(opts));
    FilterAll([pay], PaymentSelector(opts));
    StatementLayout(opts, [inv], [pay]);
  }
}
