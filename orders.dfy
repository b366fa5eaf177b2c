/**
 * Orders, invoices and the two phases of the periodic tick of App.tsx: the stage
 * advance (`prev.map`) and the guarded, one-order-at-a-time invoice generation (`forEach`).
 */
module Orders {
  import opened Wrappers
  import Stages

  datatype OrderStatus = Processing | Shipped | Delivered | Cancelled | InProgress

  /** An order as the engine holds it: the tracking stage is always set there. */
  datatype Order = Order(
    id: string,
    date: string,
    status: OrderStatus,
    item: string,
    amount: real,
    trackingStage: int,
    estimatedCompletion: string)

  /** The terminal stage the tick stops at (the literal 7 of App.tsx). */
  const LastStage: int := 7

  /** The engine's order invariant: stage within the pipeline, Delivered exactly at the last stage. */
  predicate WellFormed(o: Order)
  {
    0 <= o.trackingStage <= LastStage &&
    (o.status == InProgress || o.status == Delivered) &&
    (o.status == Delivered <==> o.trackingStage == LastStage)
  }

  /** The tick's bound 7 is the last index of the eight-stage pipeline. */
  lemma LastStageIsFinalIndex()
    ensures LastStage == |Stages.OrderStages| - 1
  {
  }

  function OrderIds(os: seq<Order>): seq<string>
  {
    seq(|os|, i requires 0 <= i < |os| => os[i].id)
  }

  /** The guard of the stage advance (App.tsx:54). */
  predicate Advancing(o: Order)
  {
    o.status == InProgress && o.trackingStage < LastStage
  }

  /**
   * One order's step of the tick: an in-progress order below the last stage moves up
   * exactly one stage, becoming Delivered exactly when it lands on the last stage; any
   * other order is returned as it is. Nothing but stage and status ever changes.
   */
  function Advance(o: Order): (r: Order)
    ensures Advancing(o) ==> r.trackingStage == o.trackingStage + 1 &&
                             (r.status == Delivered <==> r.trackingStage == LastStage) &&
                             (r.status == InProgress <==> r.trackingStage < LastStage)
    ensures !Advancing(o) ==> r == o
    ensures r == o.(trackingStage := r.trackingStage, status := r.status)
    ensures WellFormed(o) ==> WellFormed(r)
  {
    if Advancing(o) then
      var nextStage := o.trackingStage + 1;
      o.(trackingStage := nextStage, status := if nextStage == LastStage then Delivered else InProgress)
    else o
  }

  /** The stage-advance phase over the whole list (`prev.map`): same length, same order, same ids. */
  function AdvanceAll(os: seq<Order>): (r: seq<Order>)
    ensures |r| == |os| && OrderIds(r) == OrderIds(os)
    ensures forall i :: 0 <= i < |os| ==> r[i] == Advance(os[i])
  {
    if os == [] then [] else [Advance(os[0])] + AdvanceAll(os[1..])
  }

  /** The order after `n` ticks. */
  function AdvanceTimes(o: Order, n: nat): Order
  {
    if n == 0 then o else Advance(AdvanceTimes(o, n - 1))
  }

  /** A well-formed order climbs one stage per tick, never skips or goes back, and stops at the last stage. */
  lemma {:induction false} AdvanceTimesStage(o: Order, n: nat)
    requires WellFormed(o)
    ensures WellFormed(AdvanceTimes(o, n))
    ensures AdvanceTimes(o, n).trackingStage ==
      if o.trackingStage + n < LastStage then o.trackingStage + n else LastStage
    ensures AdvanceTimes(o, n) == o.(trackingStage := AdvanceTimes(o, n).trackingStage,
                                     status := AdvanceTimes(o, n).status)
  {
    if n > 0 {
      AdvanceTimesStage(o, n - 1);
    }
  }

  datatype InvoiceStatus = Paid | Unpaid | Overdue

  datatype LineItem = LineItem(description: string, quantity: int, unitPrice: real)

  datatype Invoice = Invoice(
    id: string,
    orderId: string,
    date: string,
    dueDate: string,
    amount: real,
    vat: real,
    total: real,
    status: InvoiceStatus,
    items: seq<LineItem>)

  /** The VAT rate applied to generated invoices. */
  const VatRate: real := 0.20

  /** Sum of quantity times unit price over the line items. */
  function Subtotal(items: seq<LineItem>): real
  {
    if items == [] then 0.0 else items[0].quantity as real * items[0].unitPrice + Subtotal(items[1..])
  }

  /** An invoice whose lines add up to its net amount and whose total is net plus VAT. */
  predicate Balanced(inv: Invoice)
  {
    Subtotal(inv.items) == inv.amount && inv.total == inv.amount + inv.vat
  }

  /**
   * The invoice generated for an order that reached the last stage (App.tsx:71-84):
   * unpaid, one line for the order's item at its amount, VAT at 20%, so the total is 120%
   * of the order's amount.
   */
  function InvoiceFor(o: Order, id: string, today: string, dueDate: string): (inv: Invoice)
    ensures inv.id == id && inv.orderId == o.id && inv.date == today && inv.dueDate == dueDate
    ensures inv.status == Unpaid && inv.items == [LineItem(o.item, 1, o.amount)]
    ensures inv.amount == o.amount && inv.vat == o.amount * VatRate
    ensures Balanced(inv) && inv.total == o.amount * 1.2
  {
    var vatAmount := o.amount * VatRate;
    Invoice(id, o.id, today, dueDate, o.amount, vatAmount, o.amount + vatAmount, Unpaid,
            [LineItem(o.item, 1, o.amount)])
  }

  function InvoiceIds(invs: seq<Invoice>): seq<string>
  {
    seq(|invs|, i requires 0 <= i < |invs| => invs[i].id)
  }

  function InvoiceOrderIds(invs: seq<Invoice>): seq<string>
  {
    seq(|invs|, i requires 0 <= i < |invs| => invs[i].orderId)
  }

  /** `invoices.some(inv => inv.orderId === orderId)` (App.tsx:70). */
  function AnyInvoiceFor(invs: seq<Invoice>, orderId: string): (r: bool)
    ensures r <==> orderId in InvoiceOrderIds(invs)
  {
    if invs == [] then false
    else
      assert InvoiceOrderIds(invs) == [invs[0].orderId] + InvoiceOrderIds(invs[1..]);
      invs[0].orderId == orderId || AnyInvoiceFor(invs[1..], orderId)
  }

  /** How many invoices bill `orderId`. */
  function CountFor(invs: seq<Invoice>, orderId: string): nat
  {
    if invs == [] then 0
    else (if invs[0].orderId == orderId then 1 else 0) + CountFor(invs[1..], orderId)
  }

  /** With unique order references, an order has exactly one invoice if it has any, else none. */
  lemma {:induction false} CountForDistinct(invs: seq<Invoice>, orderId: string)
    requires Distinct(InvoiceOrderIds(invs))
    ensures CountFor(invs, orderId) == if orderId in InvoiceOrderIds(invs) then 1 else 0
  {
    if invs != [] {
      var tail := invs[1..];
      assert InvoiceOrderIds(tail) == InvoiceOrderIds(invs)[1..];
      DistinctTail(InvoiceOrderIds(invs));
      CountForDistinct(tail, orderId);
      if invs[0].orderId == orderId {
        forall i | 0 <= i < |tail| ensures InvoiceOrderIds(tail)[i] != orderId {
          assert InvoiceOrderIds(invs)[0] != InvoiceOrderIds(invs)[i + 1];
        }
      }
      assert InvoiceOrderIds(invs) == [invs[0].orderId] + InvoiceOrderIds(tail);
    }
  }

  /** The guard of one iteration (App.tsx:67, 70): at the last stage and not billed yet. */
  predicate NeedsInvoice(o: Order, invs: seq<Invoice>)
  {
    o.trackingStage == LastStage && !AnyInvoiceFor(invs, o.id)
  }

  /** One iteration of the invoice phase: bill `o` unless it is not at the last stage or already billed. */
  function BillOne(o: Order, id: string, today: string, dueDate: string, invs: seq<Invoice>): seq<Invoice>
  {
    if NeedsInvoice(o, invs) then
      [InvoiceFor(o, id, today, dueDate)] + invs
    else invs
  }

  /**
   * The invoice list after the invoice phase has visited the first `k` orders; order `m`
   * is billed, if at all, under id `ids[m]`.
   */
  function BillUpTo(os: seq<Order>, ids: seq<string>, k: nat, today: string, dueDate: string,
                    invs: seq<Invoice>): seq<Invoice>
    requires k <= |os| == |ids|
  {
    if k == 0 then invs
    else BillOne(os[k - 1], ids[k - 1], today, dueDate, BillUpTo(os, ids, k - 1, today, dueDate, invs))
  }

  /** Existing invoices stay, unchanged and in the same order, behind the new ones. */
  lemma {:induction false} BillKeepsExisting(os: seq<Order>, ids: seq<string>, k: nat, today: string,
                                             dueDate: string, invs: seq<Invoice>)
    requires k <= |os| == |ids|
    ensures var r := BillUpTo(os, ids, k, today, dueDate, invs);
            |invs| <= |r| && r[|r| - |invs|..] == invs
  {
    if k > 0 {
      BillKeepsExisting(os, ids, k - 1, today, dueDate, invs);
    }
  }

  /** After visiting the first `k` orders, each of them at the last stage has an invoice. */
  lemma {:induction false} BillCovers(os: seq<Order>, ids: seq<string>, k: nat, today: string,
                                      dueDate: string, invs: seq<Invoice>)
    requires k <= |os| == |ids|
    ensures forall m :: 0 <= m < k && os[m].trackingStage == LastStage ==>
      os[m].id in InvoiceOrderIds(BillUpTo(os, ids, k, today, dueDate, invs))
  {
    if k > 0 {
      BillCovers(os, ids, k - 1, today, dueDate, invs);
      var before := BillUpTo(os, ids, k - 1, today, dueDate, invs);
      var after := BillUpTo(os, ids, k, today, dueDate, invs);
      forall x | x in InvoiceOrderIds(before) ensures x in InvoiceOrderIds(after) {
        var i :| 0 <= i < |before| && InvoiceOrderIds(before)[i] == x;
        if NeedsInvoice(os[k - 1], before) {
          assert InvoiceOrderIds(after)[i + 1] == x;
        } else {
          assert InvoiceOrderIds(after)[i] == x;
        }
      }
      if NeedsInvoice(os[k - 1], before) {
        assert InvoiceOrderIds(after)[0] == os[k - 1].id;
      }
    }
  }

  /**
   * The guard keeps order references unique and each new invoice is a generated one:
   * billed under the VAT rule for an order at the last stage, and balanced.
   */
  lemma {:induction false} BillPreserves(os: seq<Order>, ids: seq<string>, k: nat, today: string,
                                         dueDate: string, invs: seq<Invoice>)
    requires k <= |os| == |ids|
    requires Distinct(InvoiceOrderIds(invs))
    requires forall inv :: inv in invs ==> Balanced(inv)
    ensures var r := BillUpTo(os, ids, k, today, dueDate, invs);
            Distinct(InvoiceOrderIds(r)) && (forall inv :: inv in r ==> Balanced(inv))
  {
    if k > 0 {
      BillPreserves(os, ids, k - 1, today, dueDate, invs);
      var before := BillUpTo(os, ids, k - 1, today, dueDate, invs);
      var after := BillUpTo(os, ids, k, today, dueDate, invs);
      if NeedsInvoice(os[k - 1], before) {
        var o := os[k - 1];
        assert InvoiceOrderIds(after) == [o.id] + InvoiceOrderIds(before);
        DistinctCons(o.id, InvoiceOrderIds(before));
      }
    }
  }

  /** Each new invoice gets a fresh id when the supplied ids are distinct and unused. */
  lemma {:induction false} BillFreshIds(os: seq<Order>, ids: seq<string>, k: nat, today: string,
                                        dueDate: string, invs: seq<Invoice>)
    requires k <= |os| == |ids|
    requires Distinct(InvoiceIds(invs)) && Distinct(ids)
    requires forall i :: 0 <= i < |ids| ==> ids[i] !in InvoiceIds(invs)
    ensures var r := BillUpTo(os, ids, k, today, dueDate, invs);
            Distinct(InvoiceIds(r)) &&
            forall x :: x in InvoiceIds(r) ==> x in InvoiceIds(invs) || x in ids[..k]
  {
    if k > 0 {
      BillFreshIds(os, ids, k - 1, today, dueDate, invs);
      var before := BillUpTo(os, ids, k - 1, today, dueDate, invs);
      var after := BillUpTo(os, ids, k, today, dueDate, invs);
      assert ids[..k] == ids[..k - 1] + [ids[k - 1]];
      if NeedsInvoice(os[k - 1], before) {
        assert ids[k - 1] !in ids[..k - 1];
        assert InvoiceIds(after) == [ids[k - 1]] + InvoiceIds(before);
        DistinctCons(ids[k - 1], InvoiceIds(before));
      }
    }
  }

  /** `inv` is the invoice generated for one of the first `k` orders, at the last stage and not billed in `invs`. */
  predicate GeneratedForVisited(inv: Invoice, os: seq<Order>, ids: seq<string>, k: nat, today: string,
                                dueDate: string, invs: seq<Invoice>)
    requires k <= |os| == |ids|
  {
    exists m :: 0 <= m < k && os[m].trackingStage == LastStage &&
                os[m].id !in InvoiceOrderIds(invs) &&
                inv == InvoiceFor(os[m], ids[m], today, dueDate)
  }

  /** Every invoice the phase adds was generated for one of the visited orders at the last stage. */
  lemma {:induction false} BillNewAreGenerated(os: seq<Order>, ids: seq<string>, k: nat, today: string,
                                               dueDate: string, invs: seq<Invoice>)
    requires k <= |os| == |ids|
    ensures var r := BillUpTo(os, ids, k, today, dueDate, invs);
            |invs| <= |r| &&
            forall j :: 0 <= j < |r| - |invs| ==> GeneratedForVisited(r[j], os, ids, k, today, dueDate, invs)
  {
    if k > 0 {
      BillNewAreGenerated(os, ids, k - 1, today, dueDate, invs);
      BillKeepsExisting(os, ids, k - 1, today, dueDate, invs);
      var before := BillUpTo(os, ids, k - 1, today, dueDate, invs);
      var after := BillUpTo(os, ids, k, today, dueDate, invs);
      var added := NeedsInvoice(os[k - 1], before);
      if added {
        forall j | 0 <= j < |invs| ensures InvoiceOrderIds(invs)[j] != os[k - 1].id {
          assert InvoiceOrderIds(before)[|before| - |invs| + j] == invs[j].orderId;
        }
        assert after == [InvoiceFor(os[k - 1], ids[k - 1], today, dueDate)] + before;
      } else {
        assert after == before;
      }
      forall j | 0 <= j < |after| - |invs|
        ensures GeneratedForVisited(after[j], os, ids, k, today, dueDate, invs)
      {
        if added && j == 0 {
          assert after[0] == InvoiceFor(os[k - 1], ids[k - 1], today, dueDate);
        } else {
          var jj := if added then j - 1 else j;
          assert after[j] == before[jj];
          assert GeneratedForVisited(before[jj], os, ids, k - 1, today, dueDate, invs);
          var m :| 0 <= m < k - 1 && os[m].trackingStage == LastStage &&
                   os[m].id !in InvoiceOrderIds(invs) &&
                   before[jj] == InvoiceFor(os[m], ids[m], today, dueDate);
        }
      }
    }
  }

  /** When every visited order at the last stage is billed already, the phase adds nothing. */
  lemma {:induction false} BillNoop(os: seq<Order>, ids: seq<string>, k: nat, today: string,
                                    dueDate: string, invs: seq<Invoice>)
    requires k <= |os| == |ids|
    requires forall m :: 0 <= m < k && os[m].trackingStage == LastStage ==> os[m].id in InvoiceOrderIds(invs)
    ensures BillUpTo(os, ids, k, today, dueDate, invs) == invs
  {
    if k > 0 {
      BillNoop(os, ids, k - 1, today, dueDate, invs);
    }
  }

  /** An order already billed gets no further invoice, however often the phase sees it. */
  lemma {:induction false} BillNoDuplicate(os: seq<Order>, ids: seq<string>, k: nat, today: string,
                                           dueDate: string, invs: seq<Invoice>, orderId: string)
    requires k <= |os| == |ids|
    requires orderId in InvoiceOrderIds(invs)
    ensures CountFor(BillUpTo(os, ids, k, today, dueDate, invs), orderId) == CountFor(invs, orderId)
  {
    if k > 0 {
      BillNoDuplicate(os, ids, k - 1, today, dueDate, invs, orderId);
      BillKeepsExisting(os, ids, k - 1, today, dueDate, invs);
      var before := BillUpTo(os, ids, k - 1, today, dueDate, invs);
      var after := BillUpTo(os, ids, k, today, dueDate, invs);
      var i :| 0 <= i < |invs| && invs[i].orderId == orderId;
      assert before[|before| - |invs| + i] == invs[i];
      assert InvoiceOrderIds(before)[|before| - |invs| + i] == orderId;
      if NeedsInvoice(os[k - 1], before) {
        assert after[1..] == before;
        assert after[0].orderId != orderId;
      }
    }
  }
}
