/**
 The accounts-receivable aging fold of getAging: every listed invoice adds
 its requested amount to the bucket of its age group.
 */
module Aging {
  import opened Records
  import opened Seqs

  /** The five running totals, one per age group. */
  datatype Buckets = Buckets(current: int, days30: int, days60: int, days90: int, days120: int)

  const NoBuckets: Buckets := Buckets(0, 0, 0, 0, 0)

  function BucketOf(b: Buckets, g: AgeGroup): int
  {
    match g
    case Current => b.current
    case Days30 => b.days30
    case Days60 => b.days60
    case Days90 => b.days90
    case Days120 => b.days120
  }

  function Total(b: Buckets): int
  {
    b.current + b.days30 + b.days60 + b.days90 + b.days120
  }

  /** Adds `amount` to the bucket of `g` and to no other. */
  function AddTo(b: Buckets, g: AgeGroup, amount: int): (r: Buckets)
    ensures BucketOf(r, g) == BucketOf(b, g) + amount
    ensures forall h :: h != g ==> BucketOf(r, h) == BucketOf(b, h)
    ensures Total(r) == Total(b) + amount
  {
    match g
    case Current => b.(current := b.current + amount)
    case Days30 => b.(days30 := b.days30 + amount)
    case Days60 => b.(days60 := b.days60 + amount)
    case Days90 => b.(days90 := b.days90 + amount)
    case Days120 => b.(days120 := b.days120 + amount)
  }

  function Requested(inv: Invoice): int
  {
    inv.requestedAmount
  }

  /** What an invoice contributes to the bucket of `g`: its requested
      amount when it is in that group, nothing otherwise. */
  function RequestedIn(g: AgeGroup): Invoice -> int
  {
    (inv: Invoice) => if inv.ageGroup == g then inv.requestedAmount else 0
  }

  /** Reference total of one group: the requested amounts of exactly the
      invoices in that group. */
  function GroupTotal(invoices: seq<Invoice>, g: AgeGroup): int
  {
    Sum(invoices, RequestedIn(g))
  }

  lemma GroupTotalsSnoc(invoices: seq<Invoice>, inv: Invoice)
    ensures forall g ::
      GroupTotal(invoices + [inv], g) ==
        GroupTotal(invoices, g) + (if inv.ageGroup == g then inv.requestedAmount else 0)
  {
    forall g ensures GroupTotal(invoices + [inv], g) == GroupTotal(invoices, g) + RequestedIn(g)(inv) {
      SumAppend(invoices, [inv], RequestedIn(g));
      assert [inv][1..] == [];
    }
  }

  /** The fold over the invoices in their listed order. Each bucket ends up
      holding its group's total, and the five buckets together hold the
      requested amount of every invoice. */
  function AgingBuckets(invoices: seq<Invoice>): (r: Buckets)
    ensures forall g :: BucketOf(r, g) == GroupTotal(invoices, g)
    ensures Total(r) == Sum(invoices, Requested)
    decreases |invoices|
  {
    if |invoices| == 0 then NoBuckets
    else
      var prefix := invoices[..|invoices| - 1];
      var last := invoices[|invoices| - 1];
      assert invoices == prefix + [last];
      GroupTotalsSnoc(prefix, last);
      SumAppend(prefix, [last], Requested);
      AddTo(AgingBuckets(prefix), last.ageGroup, last.requestedAmount)
  }

  function NotInGroup(g: AgeGroup): Invoice -> bool
  {
    (inv: Invoice) => inv.ageGroup != g
  }

  /** Dropping the invoices of one group leaves every other group's total
      as it was. */
  lemma DroppingGroupKeepsOtherTotals(invoices: seq<Invoice>, dropped: AgeGroup, g: AgeGroup)
    requires g != dropped
    ensures GroupTotal(Filter(invoices, NotInGroup(dropped)), g) == GroupTotal(invoices, g)
  {
    SumFilterDropsZeros(invoices, NotInGroup(dropped), RequestedIn(g));
  }
}
