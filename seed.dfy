/**
 * The mock data the portal starts from (constants.ts) and the mapping that turns it
 * into the engine's working shapes when the application mounts (App.tsx:25-46).
 */
module Seed {
  import opened Wrappers
  import opened Quotes
  import opened Orders

  /** A mock quote: it has no lastActionBy, notes or negotiation price. */
  datatype SeedQuote = SeedQuote(
    id: string,
    productId: string,
    productTitle: string,
    date: string,
    status: QuoteStatus,
    amount: real,
    quantity: int)

  /** A mock order: it has no tracking stage and may carry any order status. */
  datatype SeedOrder = SeedOrder(id: string, date: string, status: OrderStatus, item: string, amount: real)

  const MockQuotes: seq<SeedQuote> := [
    SeedQuote("QT-2023-881", "1", "Cisco Meraki MX68 (Bulk Order x5)", "2023-11-20", Pending, 2150.00, 5),
    SeedQuote("QT-2023-755", "6", "Business Fibre 900 Upgrade", "2023-11-10", Approved, 49.99, 1),
    SeedQuote("QT-2023-602", "3", "AWS Dedicated Host Configuration", "2023-10-05", Rejected, 45.00, 1)
  ]

  const MockOrders: seq<SeedOrder> := [
    SeedOrder("ORD-7782-X", "2023-10-25", Delivered, "Dell UltraSharp 24″", 175.00),
    SeedOrder("ORD-9921-A", "2023-11-02", Processing, "Microsoft 365 License (x10)", 96.00),
    SeedOrder("ORD-1102-B", "2023-11-10", Shipped, "Cisco Meraki MX68", 430.00)
  ]

  const MockInvoices: seq<Invoice> := [
    Invoice("INV-2023-001", "ORD-7782-X", "2023-10-25", "2023-11-25", 175.00, 35.00, 210.00, Paid,
            [LineItem("Dell UltraSharp 24″ Monitor", 1, 175.00)]),
    Invoice("INV-2023-002", "ORD-PREV-99", "2023-09-15", "2023-10-15", 49.99, 10.00, 59.99, Paid,
            [LineItem("Business Fibre 900 - Sept Service", 1, 49.99)])
  ]

  /**
   * One mock quote mapped for the engine (App.tsx:27-36): Pending becomes In Review,
   * Approved stays, every other status becomes Rejected; empty or zero fields fall back
   * to product "6", amount 49.99 and quantity 1; the admin is marked as last to act.
   */
  function NormalizeQuote(q: SeedQuote): (r: Quote)
    ensures r.id == q.id && r.productTitle == q.productTitle && r.date == q.date
    ensures r.productId != "" && (q.productId != "" ==> r.productId == q.productId)
    ensures q.productId == "" ==> r.productId == "6"
    ensures r.amount != 0.0 && (q.amount != 0.0 ==> r.amount == q.amount)
    ensures q.amount == 0.0 ==> r.amount == 49.99
    ensures r.quantity != 0 && (q.quantity != 0 ==> r.quantity == q.quantity)
    ensures q.quantity == 0 ==> r.quantity == 1
    ensures (r.status == InReview <==> q.status == Pending) &&
            (r.status == Approved <==> q.status == Approved) &&
            (r.status == Rejected <==> q.status != Pending && q.status != Approved)
    ensures r.lastActionBy == Admin && r.notes == None && r.negotiationPrice == None
  {
    Quote(q.id,
          if q.productId != "" then q.productId else "6",
          q.productTitle,
          q.date,
          if q.status == Pending then InReview else if q.status == Approved then Approved else Rejected,
          if q.amount != 0.0 then q.amount else 49.99,
          if q.quantity != 0 then q.quantity else 1,
          None, None, Admin)
  }

  /**
   * One mock order mapped for the engine (App.tsx:38-43): a Delivered order sits at the
   * last stage, any other is In Progress at stage 1; the result is well formed.
   */
  function NormalizeOrder(o: SeedOrder): (r: Order)
    ensures WellFormed(r)
    ensures r.id == o.id && r.date == o.date && r.item == o.item && r.amount == o.amount
    ensures r.status == Delivered <==> o.status == Delivered
    ensures o.status != Delivered ==> r.trackingStage == 1
  {
    Order(o.id, o.date,
          if o.status == Delivered then Delivered else InProgress,
          o.item, o.amount,
          if o.status == Delivered then LastStage else 1,
          "NOV 24, 2023")
  }

  function NormalizeQuotes(qs: seq<SeedQuote>): (r: seq<Quote>)
    ensures |r| == |qs| && forall i :: 0 <= i < |qs| ==> r[i] == NormalizeQuote(qs[i])
  {
    if qs == [] then [] else [NormalizeQuote(qs[0])] + NormalizeQuotes(qs[1..])
  }

  function NormalizeOrders(os: seq<SeedOrder>): (r: seq<Order>)
    ensures |r| == |os| && forall i :: 0 <= i < |os| ==> r[i] == NormalizeOrder(os[i])
  {
    if os == [] then [] else [NormalizeOrder(os[0])] + NormalizeOrders(os[1..])
  }

  /** The mapped mock quotes keep their Approved and Rejected entries in the list. */
  lemma SeedQuoteStatuses()
    ensures |NormalizeQuotes(MockQuotes)| == 3
    ensures NormalizeQuotes(MockQuotes)[0].status == InReview
    ensures NormalizeQuotes(MockQuotes)[1].status == Approved
    ensures NormalizeQuotes(MockQuotes)[2].status == Rejected
  {
  }

  /** The delivered mock order ORD-7782-X is already billed by INV-2023-001, so no tick bills it again. */
  lemma SeedDeliveredAlreadyBilled()
    ensures NormalizeOrders(MockOrders)[0].trackingStage == LastStage
    ensures CountFor(MockInvoices, NormalizeOrders(MockOrders)[0].id) == 1
  {
  }

  /** INV-2023-002 is balanced but its VAT is not 20% of its amount: the VAT rule holds only for generated invoices. */
  lemma SeedVatException()
    ensures Balanced(MockInvoices[1])
    ensures MockInvoices[1].vat != MockInvoices[1].amount * VatRate
    ensures Balanced(MockInvoices[0]) && MockInvoices[0].vat == MockInvoices[0].amount * VatRate
  {
  }
}
