/**
 * The Quote -> Order -> Invoice lifecycle engine held in the top-level state of App.tsx:
 * three collections, the user commands that change them, the two deferred admin
 * responses (as methods the environment may call at any later point) and the periodic tick.
 */
module Lifecycle {
  import opened Wrappers
  import opened Quotes
  import opened Orders
  import Seed

  /** Quote ids are unique and every quantity is at least 1. */
  predicate QuotesOk(qs: seq<Quote>)
  {
    Distinct(QuoteIds(qs)) && forall i :: 0 <= i < |qs| ==> qs[i].quantity >= 1
  }

  /** Order ids are unique and every order is well formed (stage bounds, Delivered iff last stage). */
  predicate OrdersOk(os: seq<Order>)
  {
    Distinct(OrderIds(os)) && forall i :: 0 <= i < |os| ==> WellFormed(os[i])
  }

  /**
   * Invoice ids are unique, no order is billed twice, every invoice is balanced, and
   * every order at the last stage is billed.
   */
  predicate InvoicesOk(os: seq<Order>, invs: seq<Invoice>)
  {
    Distinct(InvoiceIds(invs)) && Distinct(InvoiceOrderIds(invs)) &&
    (forall i :: 0 <= i < |invs| ==> Balanced(invs[i])) &&
    forall i :: 0 <= i < |os| && os[i].trackingStage == LastStage ==> os[i].id in InvoiceOrderIds(invs)
  }

  /** The order created by approving `q` (App.tsx:184-192): In Progress at stage 0, for the quote's title and amount. */
  function OrderFromQuote(q: Quote, id: string, date: string): (o: Order)
    ensures WellFormed(o) && o.trackingStage == 0 && o.status == InProgress
    ensures o.id == id && o.date == date && o.item == q.productTitle && o.amount == q.amount
  {
    Order(id, date, InProgress, q.productTitle, q.amount, 0, "DEC 24, 2023")
  }

  /** In a valid state every order at the last stage has exactly one invoice. */
  lemma DeliveredBilledOnce(os: seq<Order>, invs: seq<Invoice>)
    requires OrdersOk(os) && InvoicesOk(os, invs)
    ensures forall i :: 0 <= i < |os| && os[i].status == Delivered ==>
      os[i].trackingStage == LastStage && CountFor(invs, os[i].id) == 1
  {
    forall i | 0 <= i < |os| && os[i].status == Delivered
      ensures CountFor(invs, os[i].id) == 1
    {
      CountForDistinct(invs, os[i].id);
    }
  }

  /** Approving a present quote removes exactly that quote and keeps the others in order. */
  lemma ApproveRemovesOne(qs: seq<Quote>, id: string)
    requires QuotesOk(qs) && FindQuote(qs, id).Some?
    ensures exists k :: 0 <= k < |qs| && qs[k] == FindQuote(qs, id).value &&
                        RemoveQuote(qs, id) == qs[..k] + qs[k + 1..]
    ensures |RemoveQuote(qs, id)| == |qs| - 1 && QuotesOk(RemoveQuote(qs, id))
  {
    var k :| 0 <= k < |qs| && qs[k] == FindQuote(qs, id).value;
    RemoveUnique(qs, id, k);
    RemoveKeepsDistinct(qs, id);
    var r := RemoveQuote(qs, id);
    RemoveQuoteMembers(qs, id);
    forall i | 0 <= i < |r| ensures r[i].quantity >= 1 {
      assert r[i] in qs;
    }
  }

  /** An approved quote's order is delivered after seven ticks, and further ticks leave it as it is. */
  lemma ApprovedOrderDelivered(q: Quote, id: string, date: string)
    ensures AdvanceTimes(OrderFromQuote(q, id, date), 7).status == Delivered
    ensures AdvanceTimes(OrderFromQuote(q, id, date), 7).trackingStage == LastStage
    ensures AdvanceTimes(OrderFromQuote(q, id, date), 8) == AdvanceTimes(OrderFromQuote(q, id, date), 7)
    ensures AdvanceTimes(OrderFromQuote(q, id, date), 7).amount == q.amount
  {
    var o := OrderFromQuote(q, id, date);
    AdvanceTimesStage(o, 7);
    AdvanceTimesStage(o, 8);
  }

  /**
   * The tick keeps every invariant: advanced orders stay well formed with the same ids,
   * and after the invoice phase each order at the last stage is billed exactly once,
   * under a fresh invoice id.
   */
  lemma TickKeepsInvariant(os: seq<Order>, ids: seq<string>, today: string, dueDate: string,
                           invs: seq<Invoice>)
    requires OrdersOk(os) && InvoicesOk(os, invs)
    requires |ids| == |os| && Distinct(ids)
    requires forall i :: 0 <= i < |ids| ==> ids[i] !in InvoiceIds(invs)
    ensures OrdersOk(AdvanceAll(os))
    ensures InvoicesOk(AdvanceAll(os), BillUpTo(AdvanceAll(os), ids, |os|, today, dueDate, invs))
  {
    var advanced := AdvanceAll(os);
    BillCovers(advanced, ids, |os|, today, dueDate, invs);
    BillPreserves(advanced, ids, |os|, today, dueDate, invs);
    BillFreshIds(advanced, ids, |os|, today, dueDate, invs);
  }

  /** The mapped seed data satisfies every invariant of the engine. */
  lemma SeedOk()
    ensures QuotesOk(Seed.NormalizeQuotes(Seed.MockQuotes))
    ensures OrdersOk(Seed.NormalizeOrders(Seed.MockOrders))
    ensures InvoicesOk(Seed.NormalizeOrders(Seed.MockOrders), Seed.MockInvoices)
  {
    SeedQuotesOk();
    SeedOrdersOk();
    SeedInvoicesOk();
  }

  lemma SeedQuotesOk()
    ensures QuotesOk(Seed.NormalizeQuotes(Seed.MockQuotes))
  {
  }

  lemma SeedOrdersOk()
    ensures OrdersOk(Seed.NormalizeOrders(Seed.MockOrders))
  {
  }

  lemma SeedInvoicesOk()
    ensures InvoicesOk(Seed.NormalizeOrders(Seed.MockOrders), Seed.MockInvoices)
  {
    assert InvoiceIds(Seed.MockInvoices) == ["INV-2023-001", "INV-2023-002"];
    assert InvoiceOrderIds(Seed.MockInvoices) == ["ORD-7782-X", "ORD-PREV-99"];
  }

  class Engine {
    var quotes: seq<Quote>
    var orders: seq<Order>
    var invoices: seq<Invoice>

    ghost predicate Valid()
      reads this
    {
      QuotesOk(quotes) && OrdersOk(orders) && InvoicesOk(orders, invoices)
    }

    /** Mounting the application: the collections are filled from the mapped mock data (App.tsx:20-46). */
    constructor ()
      ensures Valid()
      ensures quotes == Seed.NormalizeQuotes(Seed.MockQuotes)
      ensures orders == Seed.NormalizeOrders(Seed.MockOrders)
      ensures invoices == Seed.MockInvoices
    {
      quotes := Seed.NormalizeQuotes(Seed.MockQuotes);
      orders := Seed.NormalizeOrders(Seed.MockOrders);
      invoices := Seed.MockInvoices;
      SeedOk();
    }

    /**
     * addQuote (App.tsx:137-145): the new quote goes to the front of the list. The admin's
     * counter-offer it schedules is AdminCounterOffer(freshId).
     */
    method AddQuote(productId: string, productTitle: string, quantity: int, amount: real,
                    notes: Option<string>, freshId: string, date: string)
      requires Valid()
      requires quantity >= 1
      requires freshId !in QuoteIds(quotes)
      modifies this
      ensures Valid()
      ensures quotes == [NewQuote(freshId, productId, productTitle, quantity, amount, notes, date)] + old(quotes)
      ensures orders == old(orders) && invoices == old(invoices)
    {
      var q := NewQuote(freshId, productId, productTitle, quantity, amount, notes, date);
      assert QuoteIds([q] + quotes) == [freshId] + QuoteIds(quotes);
      DistinctCons(freshId, QuoteIds(quotes));
      quotes := [q] + quotes;
    }

    /** The counter-offer timer of addQuote (App.tsx:148-154); it fires whatever the quote's state. */
    method AdminCounterOffer(id: string)
      requires Valid()
      modifies this
      ensures Valid()
      ensures quotes == CounterOffer(old(quotes), id)
      ensures orders == old(orders) && invoices == old(invoices)
    {
      quotes := CounterOffer(quotes, id);
    }

    /**
     * updateQuoteStatus (App.tsx:157-177). The result tells whether it armed the admin's
     * answer, which is then AdminAnswer(id, price).
     */
    method UpdateQuoteStatus(id: string, status: QuoteStatus, price: Option<real>)
      returns (answerScheduled: bool)
      requires Valid()
      modifies this
      ensures Valid()
      ensures quotes == UpdateStatus(old(quotes), id, status, price)
      ensures answerScheduled <==> id in QuoteIds(old(quotes)) && SchedulesAnswer(status, price)
      ensures orders == old(orders) && invoices == old(invoices)
    {
      answerScheduled := id in QuoteIds(quotes) && SchedulesAnswer(status, price);
      quotes := UpdateStatus(quotes, id, status, price);
    }

    /** Decline (App.tsx:237): the quote is Rejected by the user and stays in the list; no answer follows. */
    method Decline(id: string) returns (answerScheduled: bool)
      requires Valid()
      modifies this
      ensures Valid()
      ensures quotes == UpdateStatus(old(quotes), id, Rejected, None)
      ensures !answerScheduled
      ensures orders == old(orders) && invoices == old(invoices)
    {
      answerScheduled := UpdateQuoteStatus(id, Rejected, None);
    }

    /**
     * Negotiate (App.tsx:238): the quote goes back In Review from the user; a non-zero
     * price is recorded and answered, a zero price neither.
     */
    method Negotiate(id: string, price: real) returns (answerScheduled: bool)
      requires Valid()
      modifies this
      ensures Valid()
      ensures quotes == UpdateStatus(old(quotes), id, InReview, Some(price))
      ensures answerScheduled <==> id in QuoteIds(old(quotes)) && price != 0.0
      ensures orders == old(orders) && invoices == old(invoices)
    {
      answerScheduled := UpdateQuoteStatus(id, InReview, Some(price));
    }

    /** The answer timer of updateQuoteStatus (App.tsx:165-171); it fires whatever the quote's state. */
    method AdminAnswer(id: string, price: Option<real>)
      requires Valid()
      modifies this
      ensures Valid()
      ensures quotes == AnswerNegotiation(old(quotes), id, price)
      ensures orders == old(orders) && invoices == old(invoices)
    {
      quotes := AnswerNegotiation(quotes, id, price);
    }

    /**
     * approveQuote (App.tsx:179-199): an unknown id changes nothing; otherwise the quote
     * becomes a new order at the front of the orders, the quote leaves the list, and the
     * new order's id is returned for selection.
     */
    method Approve(id: string, freshOrderId: string, date: string) returns (selected: Option<string>)
      requires Valid()
      requires freshOrderId !in OrderIds(orders) && freshOrderId !in InvoiceOrderIds(invoices)
      modifies this
      ensures Valid()
      ensures FindQuote(old(quotes), id).None? ==>
        quotes == old(quotes) && orders == old(orders) && selected == None
      ensures FindQuote(old(quotes), id).Some? ==>
        orders == [OrderFromQuote(FindQuote(old(quotes), id).value, freshOrderId, date)] + old(orders) &&
        quotes == RemoveQuote(old(quotes), id) && |quotes| == |old(quotes)| - 1 &&
        selected == Some(freshOrderId)
      ensures invoices == old(invoices)
    {
      var found := FindQuote(quotes, id);
      if found.None? {
        return None;
      }
      var o := OrderFromQuote(found.value, freshOrderId, date);
      assert OrderIds([o] + orders) == [freshOrderId] + OrderIds(orders);
      DistinctCons(freshOrderId, OrderIds(orders));
      ApproveRemovesOne(quotes, id);
      orders := [o] + orders;
      quotes := RemoveQuote(quotes, id);
      selected := Some(freshOrderId);
    }

    /**
     * The periodic tick (App.tsx:49-96): first every order advances (prev.map), then the
     * invoice phase bills the orders that reached the last stage. Order m is billed, if
     * at all, under freshInvoiceIds[m].
     */
    method Tick(today: string, dueDate: string, freshInvoiceIds: seq<string>)
      requires Valid()
      requires |freshInvoiceIds| == |orders| && Distinct(freshInvoiceIds)
      requires forall i :: 0 <= i < |freshInvoiceIds| ==> freshInvoiceIds[i] !in InvoiceIds(invoices)
      modifies this
      ensures Valid()
      ensures orders == AdvanceAll(old(orders))
      ensures invoices == BillUpTo(orders, freshInvoiceIds, |orders|, today, dueDate, old(invoices))
      ensures quotes == old(quotes)
    {
      orders := AdvanceAll(orders);
      BillDeliveredOrders(today, dueDate, freshInvoiceIds);
      TickKeepsInvariant(old(orders), freshInvoiceIds, today, dueDate, old(invoices));
    }

    /**
     * The invoice phase of the tick (App.tsx:66-90): the orders are visited in list order
     * and each one at the last stage without an invoice gets one, at the front.
     */
    method BillDeliveredOrders(today: string, dueDate: string, freshInvoiceIds: seq<string>)
      requires |freshInvoiceIds| == |orders|
      modifies this`invoices
      ensures invoices == BillUpTo(orders, freshInvoiceIds, |orders|, today, dueDate, old(invoices))
    {
      var i := 0;
      while i < |orders|
        invariant 0 <= i <= |orders|
        invariant invoices == BillUpTo(orders, freshInvoiceIds, i, today, dueDate, old(invoices))
      {
        var o := orders[i];
        assert BillUpTo(orders, freshInvoiceIds, i + 1, today, dueDate, old(invoices)) ==
               BillOne(o, freshInvoiceIds[i], today, dueDate, invoices);
        if o.trackingStage == LastStage {
          if !AnyInvoiceFor(invoices, o.id) {
            invoices := [InvoiceFor(o, freshInvoiceIds[i], today, dueDate)] + invoices;
          }
        }
        i := i + 1;
      }
    }
  }
}
