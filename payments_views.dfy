/**
 * The Razorpay webhook: an unauthenticated endpoint that, for a
 * `payment.captured` event, marks the booking carrying the event's order id
 * as paid and active.
 */
module PaymentWebhook {
  import opened Wrappers
  import Http
  import Bookings
  import Inventory
  import BookingApi

  const CapturedEvent: string := "payment.captured"

  /**
   * The positions of the bookings whose order id equals `order`, in table
   * order. This is `Booking.objects.get(razorpay_order_id=order)` before it
   * decides between "none", "one" and "several"; a `None` order id matches
   * the bookings with no order id, as a Django lookup on `None` does.
   */
  function MatchIndices(bs: seq<Bookings.Booking>, order: Option<string>): (r: seq<nat>)
    ensures forall k :: 0 <= k < |r| ==> r[k] < |bs| && bs[r[k]].orderId == order
    ensures forall i :: 0 <= i < |bs| && bs[i].orderId == order ==> i in r
    ensures forall k, l :: 0 <= k < l < |r| ==> r[k] < r[l]
  {
    if bs == [] then []
    else
      var n := |bs| - 1;
      var init := MatchIndices(bs[..n], order);
      if bs[n].orderId == order then init + [n] else init
  }

  /** Changing fields other than the order id leaves the matches alone. */
  lemma {:induction false} MatchIndicesOnlyReadOrderIds(bs: seq<Bookings.Booking>, cs: seq<Bookings.Booking>, order: Option<string>)
    requires |bs| == |cs|
    requires forall i :: 0 <= i < |bs| ==> bs[i].orderId == cs[i].orderId
    ensures MatchIndices(bs, order) == MatchIndices(cs, order)
  {
    if bs != [] {
      var n := |bs| - 1;
      MatchIndicesOnlyReadOrderIds(bs[..n], cs[..n], order);
    }
  }

  /** With no booking carrying the order id, nothing matches. */
  lemma {:induction false} NoMatch(bs: seq<Bookings.Booking>, order: Option<string>)
    requires forall j :: 0 <= j < |bs| ==> bs[j].orderId != order
    ensures MatchIndices(bs, order) == []
  {
    if bs != [] {
      NoMatch(bs[..|bs| - 1], order);
    }
  }

  /** With exactly one booking carrying the order id, the lookup finds that one. */
  lemma {:induction false} SingleMatch(bs: seq<Bookings.Booking>, order: Option<string>, i: nat)
    requires i < |bs| && bs[i].orderId == order
    requires forall j :: 0 <= j < |bs| && j != i ==> bs[j].orderId != order
    ensures MatchIndices(bs, order) == [i]
  {
    var n := |bs| - 1;
    if i == n {
      NoMatch(bs[..n], order);
    } else {
      SingleMatch(bs[..n], order, i);
    }
  }

  /** The event fields the handler reads, already parsed from the request. */
  datatype Event = Event(kind: Option<string>, orderId: Option<string>, paymentId: Option<string>)

  /** The outcome of one webhook delivery: the status code and the bookings table after it. */
  datatype Outcome = Outcome(code: int, bookings: seq<Bookings.Booking>)

  /**
   * What the handler does with a delivery whose signature checks passed:
   * events other than `payment.captured` and unknown order ids are
   * acknowledged with no change; several bookings with the order id make
   * the lookup raise (500); the one matching booking is marked paid and
   * active unless it is paid already, or cancelled.
   */
  function Captured(bs: seq<Bookings.Booking>, e: Event): (o: Outcome)
    ensures |o.bookings| == |bs|
    ensures o.code == Http.Ok || o.code == Http.ServerError
    ensures e.kind != Some(CapturedEvent) ==> o == Outcome(Http.Ok, bs)
    ensures e.orderId.None? ==> o == Outcome(Http.Ok, bs)
    ensures o.code == Http.ServerError ==> o.bookings == bs
    ensures forall i :: 0 <= i < |bs| && o.bookings[i] != bs[i] ==>
      && e.orderId.Some? && bs[i].orderId == e.orderId
      && bs[i].paymentStatus != Bookings.Paid && bs[i].status != Bookings.Cancelled
      && o.bookings[i] == BookingApi.PaidAndActive(bs[i], e.paymentId)
  {
    if e.kind != Some(CapturedEvent) || e.orderId.None? then Outcome(Http.Ok, bs)
    else
      var m := MatchIndices(bs, e.orderId);
      if |m| == 0 then Outcome(Http.Ok, bs)
      else if |m| > 1 then Outcome(Http.ServerError, bs)
      else
        var b := bs[m[0]];
        if b.paymentStatus == Bookings.Paid || b.status == Bookings.Cancelled then Outcome(Http.Ok, bs)
        else Outcome(Http.Ok, bs[m[0] := BookingApi.PaidAndActive(b, e.paymentId)])
  }

  /** A booking that is already paid is never touched, so replaying an event changes nothing more. */
  lemma CapturedIdempotent(bs: seq<Bookings.Booking>, e: Event)
    ensures Captured(Captured(bs, e).bookings, e) == Captured(bs, e)
  {
    var o := Captured(bs, e);
    if e.kind == Some(CapturedEvent) && e.orderId.Some? {
      MatchIndicesOnlyReadOrderIds(bs, o.bookings, e.orderId);
    }
  }

  /** A captured payment for the one unpaid, live booking with that order id marks it paid and active. */
  lemma CapturedMarksPaid(bs: seq<Bookings.Booking>, e: Event, i: nat)
    requires i < |bs| && e.kind == Some(CapturedEvent) && e.orderId.Some?
    requires bs[i].orderId == e.orderId
    requires forall j :: 0 <= j < |bs| && j != i ==> bs[j].orderId != e.orderId
    requires bs[i].paymentStatus != Bookings.Paid && bs[i].status != Bookings.Cancelled
    ensures Captured(bs, e) == Outcome(Http.Ok, bs[i := BookingApi.PaidAndActive(bs[i], e.paymentId)])
  {
    SingleMatch(bs, e.orderId, i);
  }

  /** The handler as written: it looks the order id up even when the event carries none. */
  function CapturedAsWritten(bs: seq<Bookings.Booking>, e: Event): (o: Outcome)
    ensures |o.bookings| == |bs|
    ensures e.kind != Some(CapturedEvent) ==> o == Outcome(Http.Ok, bs)
  {
    if e.kind != Some(CapturedEvent) then Outcome(Http.Ok, bs)
    else
      var m := MatchIndices(bs, e.orderId);
      if |m| != 1 then Outcome(if |m| == 0 then Http.Ok else Http.ServerError, bs)
      else
        var b := bs[m[0]];
        if b.paymentStatus == Bookings.Paid then Outcome(Http.Ok, bs)
        else Outcome(Http.Ok, bs[m[0] := BookingApi.PaidAndActive(b, e.paymentId)])
  }

  /**
   * As written, a captured event without an order id marks paid and active
   * the one booking that never had a Razorpay order: a cash-on-return
   * booking, say.
   */
  lemma CapturedWithoutOrderPaysCashBookingAsWritten(b: Bookings.Booking, paymentId: Option<string>)
    requires b.orderId.None? && b.paymentStatus == Bookings.Unpaid
    ensures CapturedAsWritten([b], Event(Some(CapturedEvent), None, paymentId)).bookings[0].paymentStatus == Bookings.Paid
    ensures Captured([b], Event(Some(CapturedEvent), None, paymentId)).bookings == [b]
  {
    SingleMatch([b], None, 0);
  }

  /**
   * `RazorpayWebhookView.post`. `signature` is the X-Razorpay-Signature
   * header, `secret` the configured webhook secret, `signatureValid` the
   * gateway's HMAC check of the body. The missing header is refused before
   * anything else; then a missing secret is a server error; then a bad
   * signature is refused; then `Captured` applies.
   */
  method Post(db: Inventory.Marketplace, signature: Option<string>, secret: Option<string>,
              signatureValid: bool, e: Event) returns (code: int)
    requires db.Valid()
    modifies db
    ensures db.Valid() && db.stock == old(db.stock) && db.tools == old(db.tools)
    ensures !Given(signature) ==> code == Http.BadRequest && db.bookings == old(db.bookings)
    ensures Given(signature) && !Given(secret) ==>
      code == Http.ServerError && db.bookings == old(db.bookings)
    ensures Given(signature) && Given(secret) && !signatureValid ==>
      code == Http.BadRequest && db.bookings == old(db.bookings)
    ensures Given(signature) && Given(secret) && signatureValid ==>
      Outcome(code, db.bookings) == Captured(old(db.bookings), e)
  {
    if !Given(signature) {
      return Http.BadRequest;
    }
    if !Given(secret) {
      return Http.ServerError;
    }
    if !signatureValid {
      return Http.BadRequest;
    }
    var o := Captured(db.bookings, e);
    if o.bookings != db.bookings {
      var m := MatchIndices(db.bookings, e.orderId);
      BookingApi.PromotingLiveBookingKeepsHeld(db.bookings, m[0], e.paymentId);
    }
    db.bookings := o.bookings;
    code := o.code;
  }
}
