/**
 * Quotes and the per-quote transforms the lifecycle engine applies to its quote list
 * (App.tsx: addQuote, its counter-offer timer, updateQuoteStatus, its answer timer,
 * and the find/filter of approveQuote).
 */
module Quotes {
  import opened Wrappers

  datatype QuoteStatus = InReview | ActionRequired | Approved | Rejected | Pending

  /** Whose turn it is to act on a quote. */
  datatype Actor = User | Admin

  /** A quote as the engine holds it; money is an exact real. */
  datatype Quote = Quote(
    id: string,
    productId: string,
    productTitle: string,
    date: string,
    status: QuoteStatus,
    amount: real,
    quantity: int,
    notes: Option<string>,
    negotiationPrice: Option<real>,
    lastActionBy: Actor)

  /** The counter-offer factor of the simulated admin (a 5% discount). */
  const CounterOfferFactor: real := 0.95

  function QuoteIds(qs: seq<Quote>): seq<string>
  {
    seq(|qs|, i requires 0 <= i < |qs| => qs[i].id)
  }

  /** JavaScript truthiness of an optional price: present and non-zero. */
  predicate Truthy(price: Option<real>)
  {
    price.Some? && price.value != 0.0
  }

  /** `list.map(q => q.id === id ? f(q) : q)`: apply `f` to every quote carrying `id`. */
  function MapMatching(qs: seq<Quote>, id: string, f: Quote -> Quote): (r: seq<Quote>)
    ensures |r| == |qs|
    ensures forall i :: 0 <= i < |qs| ==> r[i] == if qs[i].id == id then f(qs[i]) else qs[i]
  {
    if qs == [] then [] else [if qs[0].id == id then f(qs[0]) else qs[0]] + MapMatching(qs[1..], id, f)
  }

  /** The quote created by a request: status In Review, the user acted last (App.tsx:137-144). */
  function NewQuote(id: string, productId: string, productTitle: string, quantity: int,
                    amount: real, notes: Option<string>, date: string): (q: Quote)
    ensures q.id == id && q.date == date
    ensures q.productId == productId && q.productTitle == productTitle
    ensures q.quantity == quantity && q.amount == amount && q.notes == notes
    ensures q.status == InReview && q.lastActionBy == User && q.negotiationPrice == None
  {
    Quote(id, productId, productTitle, date, InReview, amount, quantity, notes, None, User)
  }

  function Countered(q: Quote): Quote
  {
    q.(status := ActionRequired, lastActionBy := Admin, amount := q.amount * CounterOfferFactor)
  }

  /**
   * The deferred counter-offer (App.tsx:149-153): every quote with `id` becomes
   * Action Required from the admin at 95% of its current amount, whatever its status;
   * every other quote, and every other field, is untouched.
   */
  function CounterOffer(qs: seq<Quote>, id: string): (r: seq<Quote>)
    ensures |r| == |qs| && QuoteIds(r) == QuoteIds(qs)
    ensures forall i :: 0 <= i < |qs| && qs[i].id != id ==> r[i] == qs[i]
    ensures forall i :: 0 <= i < |qs| && qs[i].id == id ==>
      r[i].status == ActionRequired && r[i].lastActionBy == Admin &&
      r[i].amount == qs[i].amount * 0.95 &&
      r[i] == qs[i].(status := r[i].status, lastActionBy := r[i].lastActionBy, amount := r[i].amount)
  {
    MapMatching(qs, id, Countered)
  }

  /** The user's action on one quote (App.tsx:160-161): a falsy price is not recorded. */
  function UserAction(q: Quote, status: QuoteStatus, price: Option<real>): Quote
  {
    var updated := q.(status := status, lastActionBy := User);
    if Truthy(price) then updated.(negotiationPrice := price) else updated
  }

  /** Whether updateQuoteStatus arms the admin-answer timer for a matching quote (App.tsx:164). */
  predicate SchedulesAnswer(status: QuoteStatus, price: Option<real>)
  {
    status == Pending || (status == InReview && Truthy(price))
  }

  /**
   * updateQuoteStatus on the list (App.tsx:158-176): every quote with `id` takes `status`,
   * the user acted last, and a truthy price is recorded as the negotiation price.
   */
  function UpdateStatus(qs: seq<Quote>, id: string, status: QuoteStatus, price: Option<real>): (r: seq<Quote>)
    ensures |r| == |qs| && QuoteIds(r) == QuoteIds(qs)
    ensures forall i :: 0 <= i < |qs| && qs[i].id != id ==> r[i] == qs[i]
    ensures forall i :: 0 <= i < |qs| && qs[i].id == id ==>
      r[i].status == status && r[i].lastActionBy == User &&
      r[i].negotiationPrice == (if Truthy(price) then price else qs[i].negotiationPrice) &&
      r[i] == qs[i].(status := status, lastActionBy := User, negotiationPrice := r[i].negotiationPrice)
  {
    MapMatching(qs, id, q => UserAction(q, status, price))
  }

  function Answered(q: Quote, price: Option<real>): Quote
  {
    q.(status := ActionRequired, lastActionBy := Admin,
       amount := if Truthy(price) then price.value else q.amount)
  }

  /**
   * The deferred admin answer to a negotiation (App.tsx:166-170): every quote with `id`
   * becomes Action Required from the admin, its amount the negotiated price when that price
   * is truthy, whatever the quote's status has become meanwhile.
   */
  function AnswerNegotiation(qs: seq<Quote>, id: string, price: Option<real>): (r: seq<Quote>)
    ensures |r| == |qs| && QuoteIds(r) == QuoteIds(qs)
    ensures forall i :: 0 <= i < |qs| && qs[i].id != id ==> r[i] == qs[i]
    ensures forall i :: 0 <= i < |qs| && qs[i].id == id ==>
      r[i].status == ActionRequired && r[i].lastActionBy == Admin &&
      (Truthy(price) ==> r[i].amount == price.value) &&
      (!Truthy(price) ==> r[i].amount == qs[i].amount) &&
      r[i] == qs[i].(status := ActionRequired, lastActionBy := Admin, amount := r[i].amount)
  {
    MapMatching(qs, id, q => Answered(q, price))
  }

  /** `quotes.find(q => q.id === id)`: a quote carrying `id`, if there is one. */
  function FindQuote(qs: seq<Quote>, id: string): (r: Option<Quote>)
    ensures r.None? <==> id !in QuoteIds(qs)
    ensures r.Some? ==> r.value in qs && r.value.id == id
  {
    if qs == [] then None
    else if qs[0].id == id then (assert QuoteIds(qs)[0] == id; Some(qs[0]))
    else
      assert QuoteIds(qs) == [qs[0].id] + QuoteIds(qs[1..]);
      FindQuote(qs[1..], id)
  }

  /** find returns the FIRST quote carrying `id`. */
  lemma {:induction false} FindFirst(qs: seq<Quote>, id: string, k: nat)
    requires k < |qs| && qs[k].id == id && id !in QuoteIds(qs[..k])
    ensures FindQuote(qs, id) == Some(qs[k])
  {
    if k > 0 {
      assert qs[0].id == QuoteIds(qs[..k])[0];
      assert qs[1..][..k - 1] == qs[1..k];
      assert QuoteIds(qs[1..k]) == QuoteIds(qs[..k])[1..];
      FindFirst(qs[1..], id, k - 1);
    }
  }

  /** `quotes.filter(q => q.id !== id)`: the quotes not carrying `id`, in their order. */
  function RemoveQuote(qs: seq<Quote>, id: string): (r: seq<Quote>)
    ensures |r| <= |qs|
    ensures forall i :: 0 <= i < |r| ==> r[i].id != id
  {
    if qs == [] then []
    else if qs[0].id == id then RemoveQuote(qs[1..], id)
    else [qs[0]] + RemoveQuote(qs[1..], id)
  }

  /** The filter keeps exactly the quotes that do not carry `id`. */
  lemma {:induction false} RemoveQuoteMembers(qs: seq<Quote>, id: string)
    ensures forall q :: q in RemoveQuote(qs, id) <==> q in qs && q.id != id
  {
    if qs != [] {
      RemoveQuoteMembers(qs[1..], id);
      assert qs == [qs[0]] + qs[1..];
    }
  }

  /** Filtering out an id no quote carries leaves the list as it is. */
  lemma {:induction false} RemoveAbsent(qs: seq<Quote>, id: string)
    requires id !in QuoteIds(qs)
    ensures RemoveQuote(qs, id) == qs
  {
    if qs != [] {
      assert QuoteIds(qs[1..]) == QuoteIds(qs)[1..];
      assert QuoteIds(qs)[0] != id;
      RemoveAbsent(qs[1..], id);
    }
  }

  /** The filter distributes over concatenation. */
  lemma {:induction false} RemoveAppend(a: seq<Quote>, b: seq<Quote>, id: string)
    ensures RemoveQuote(a + b, id) == RemoveQuote(a, id) + RemoveQuote(b, id)
  {
    if a != [] {
      assert (a + b)[1..] == a[1..] + b;
      RemoveAppend(a[1..], b, id);
    } else {
      assert a + b == b;
    }
  }

  /** With unique ids, approving removes exactly the one quote at position `k` and keeps the rest in order. */
  lemma RemoveUnique(qs: seq<Quote>, id: string, k: nat)
    requires Distinct(QuoteIds(qs))
    requires k < |qs| && qs[k].id == id
    ensures RemoveQuote(qs, id) == qs[..k] + qs[k + 1..]
  {
    var before, after := qs[..k], qs[k + 1..];
    assert id !in QuoteIds(before) by {
      forall i | 0 <= i < k ensures QuoteIds(before)[i] != id {
        assert QuoteIds(qs)[i] != QuoteIds(qs)[k];
      }
    }
    assert id !in QuoteIds(after) by {
      forall i | 0 <= i < |after| ensures QuoteIds(after)[i] != id {
        assert QuoteIds(qs)[k] != QuoteIds(qs)[k + 1 + i];
      }
    }
    assert qs == before + ([qs[k]] + after);
    RemoveAppend(before, [qs[k]] + after, id);
    assert RemoveQuote([qs[k]] + after, id) == RemoveQuote(after, id);
    RemoveAbsent(before, id);
    RemoveAbsent(after, id);
  }

  /** Removing quotes keeps the remaining ids unique. */
  lemma {:induction false} RemoveKeepsDistinct(qs: seq<Quote>, id: string)
    requires Distinct(QuoteIds(qs))
    ensures Distinct(QuoteIds(RemoveQuote(qs, id)))
  {
    if qs != [] {
      var tail := qs[1..];
      assert QuoteIds(tail) == QuoteIds(qs)[1..];
      DistinctTail(QuoteIds(qs));
      RemoveKeepsDistinct(tail, id);
      if qs[0].id != id {
        var rest := RemoveQuote(tail, id);
        assert qs[0].id !in QuoteIds(rest) by {
          RemoveQuoteMembers(tail, id);
          forall i | 0 <= i < |rest| ensures rest[i].id != qs[0].id {
            var j :| 0 <= j < |tail| && tail[j] == rest[i];
            assert QuoteIds(qs)[j + 1] != QuoteIds(qs)[0];
          }
        }
        assert QuoteIds([qs[0]] + rest) == [qs[0].id] + QuoteIds(rest);
        DistinctCons(qs[0].id, QuoteIds(rest));
      }
    }
  }

  /** A deferred admin response that fires after the quote was approved (removed) changes nothing. */
  lemma LateResponseAfterApprove(qs: seq<Quote>, id: string, price: Option<real>)
    ensures CounterOffer(RemoveQuote(qs, id), id) == RemoveQuote(qs, id)
    ensures AnswerNegotiation(RemoveQuote(qs, id), id, price) == RemoveQuote(qs, id)
  {
  }

  /** The deferred responses have no status guard: a quote declined in the meantime is reopened by the admin. */
  lemma LateResponseReopensDeclined(qs: seq<Quote>, id: string, k: nat, price: Option<real>)
    requires k < |qs| && qs[k].id == id
    ensures CounterOffer(UpdateStatus(qs, id, Rejected, None), id)[k].status == ActionRequired
    ensures AnswerNegotiation(UpdateStatus(qs, id, Rejected, None), id, price)[k].status == ActionRequired
    ensures UpdateStatus(qs, id, Rejected, None)[k].status == Rejected
  {
  }
}
