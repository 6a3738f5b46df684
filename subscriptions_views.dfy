/**
 * The subscription endpoints: a provider orders a subscription (a pending
 * row carrying the gateway's order id) and then verifies the payment,
 * which activates the row for thirty days from now.
 */
module SubscriptionApi {
  import opened Wrappers
  import Http
  import Users
  import Subscriptions

  const SecondsPerDay: int := 86400
  const PeriodDays: int := 30

  /** The user already has a subscription that is active now. */
  predicate HasActive(subs: seq<Subscriptions.Subscription>, user: nat, now: int)
  {
    exists i :: 0 <= i < |subs| && subs[i].user == user && Subscriptions.IsActive(subs[i], now)
  }

  /** What a verified payment writes: active, the payment id, and a period from now of thirty days. */
  function Activated(s: Subscriptions.Subscription, paymentId: string, now: int): (r: Subscriptions.Subscription)
    ensures r.status == Subscriptions.Active && r.paymentId == paymentId
    ensures r.start == Some(now) && r.end == Some(now + PeriodDays * SecondsPerDay)
    ensures r.user == s.user && r.orderId == s.orderId && r.amount == s.amount
  {
    s.(status := Subscriptions.Active, paymentId := paymentId, start := Some(now),
       end := Some(now + PeriodDays * SecondsPerDay))
  }

  /** An activated subscription is active for exactly the thirty days that follow. */
  lemma ActivatedActiveForThirtyDays(s: Subscriptions.Subscription, paymentId: string, now: int, t: int)
    ensures Subscriptions.IsActive(Activated(s, paymentId, now), t) <==> t < now + 30 * 86400
  {
  }

  /**
   * `CreateSubscriptionOrderView.post` as written. The gateway helper it
   * calls takes a single booking, but the view passes it an amount, a
   * currency and a notes dictionary; the call raises `TypeError` before
   * any request is sent, the `except Exception` turns it into a 500, and
   * no row is ever written. Only the two guards in front of it answer
   * otherwise.
   */
  function CreateOrderAsWritten(caller: Users.User, subs: seq<Subscriptions.Subscription>, now: int): (code: int)
    ensures caller.userType != Users.Provider ==> code == Http.Forbidden
    ensures caller.userType == Users.Provider && HasActive(subs, caller.id, now) ==> code == Http.BadRequest
    ensures caller.userType == Users.Provider && !HasActive(subs, caller.id, now) ==> code == Http.ServerError
  {
    if caller.userType != Users.Provider then Http.Forbidden
    else if HasActive(subs, caller.id, now) then Http.BadRequest
    else Http.ServerError
  }

  /**
   * The corrected endpoint, with the gateway call given the order it was
   * meant to create: `order` is the id of that order, `None` when the
   * gateway fails. A renter gets 403; a provider with an active
   * subscription 400; a failed order, or an order id already stored (the
   * unique column refuses it), 500; otherwise 200.
   */
  function OrderResponse(caller: Users.User, subs: seq<Subscriptions.Subscription>, now: int,
                         order: Option<string>): (code: int)
    ensures code == Http.Ok <==>
      caller.userType == Users.Provider && !HasActive(subs, caller.id, now) && order.Some?
      && forall i :: 0 <= i < |subs| ==> subs[i].orderId != order
    ensures code != Http.Ok ==> code == CreateOrderAsWritten(caller, subs, now)
  {
    if caller.userType != Users.Provider then Http.Forbidden
    else if HasActive(subs, caller.id, now) then Http.BadRequest
    else if order.Some? && forall i :: 0 <= i < |subs| ==> subs[i].orderId != order then Http.Ok
    else Http.ServerError
  }

  /**
   * As written, no provider can ever start a subscription: the order
   * endpoint never answers 200. With the call corrected, a provider
   * without an active subscription whose fresh order the gateway creates
   * is answered 200 where the written code answers 500.
   */
  lemma CreateOrderAsWrittenNeverSucceeds(caller: Users.User, subs: seq<Subscriptions.Subscription>, now: int, order: string)
    ensures CreateOrderAsWritten(caller, subs, now) != Http.Ok
    ensures caller.userType == Users.Provider && subs == [] ==>
      CreateOrderAsWritten(caller, subs, now) == Http.ServerError
      && OrderResponse(caller, subs, now, Some(order)) == Http.Ok
  {
  }

  class SubscriptionTable {
    var subs: seq<Subscriptions.Subscription>

    ghost predicate Valid()
      reads this
    {
      Subscriptions.UniqueOrderIds(subs)
    }

    constructor ()
      ensures Valid() && subs == []
    {
      subs := [];
    }

    /**
     * The corrected `CreateSubscriptionOrderView.post` against the table:
     * the response is `OrderResponse`, and on 200 one pending row for
     * 200.00 INR carrying the order id is appended.
     */
    method CreateOrder(caller: Users.User, now: int, order: Option<string>) returns (code: int)
      requires Valid()
      modifies this
      ensures Valid()
      ensures code == OrderResponse(caller, old(subs), now, order)
      ensures code == Http.Ok ==> subs == old(subs) + [Subscriptions.NewSubscription(caller.id, order)]
      ensures code != Http.Ok ==> subs == old(subs)
    {
      if caller.userType != Users.Provider {
        return Http.Forbidden;
      }
      if HasActive(subs, caller.id, now) {
        return Http.BadRequest;
      }
      if order.None? {
        return Http.ServerError;
      }
      var existing := Subscriptions.Lookup(subs, order.value);
      if existing.Some? {
        return Http.ServerError;
      }
      subs := subs + [Subscriptions.NewSubscription(caller.id, order)];
      code := Http.Ok;
    }

    /**
     * `VerifySubscriptionPaymentView.post`: 400 unless payment id, order id
     * and signature are all given; the signature (`signatureValid`, the
     * gateway's HMAC check) is checked before the row is looked up, so an
     * invalid one is 400 even for an unknown order; a valid one for an
     * unknown order is 404; otherwise the row is activated.
     */
    method VerifyPayment(now: int, paymentId: Option<string>, orderId: Option<string>,
                         signature: Option<string>, signatureValid: bool) returns (code: int)
      requires Valid()
      modifies this
      ensures Valid()
      ensures !Given(paymentId) || !Given(orderId) || !Given(signature) ==> code == Http.BadRequest
      ensures Given(paymentId) && Given(orderId) && Given(signature) && !signatureValid ==> code == Http.BadRequest
      ensures Given(paymentId) && Given(orderId) && Given(signature) && signatureValid ==>
        code == (if Subscriptions.Lookup(old(subs), orderId.value).Some? then Http.Ok else Http.NotFound)
      ensures code == Http.Ok ==>
        var i := Subscriptions.Lookup(old(subs), orderId.value).value;
        subs == old(subs)[i := Activated(old(subs)[i], paymentId.value, now)]
      ensures code != Http.Ok ==> subs == old(subs)
    {
      if !Given(paymentId) || !Given(orderId) || !Given(signature) {
        return Http.BadRequest;
      }
      if !signatureValid {
        return Http.BadRequest;
      }
      var found := Subscriptions.Lookup(subs, orderId.value);
      if found.None? {
        return Http.NotFound;
      }
      var i := found.value;
      subs := subs[i := Activated(subs[i], paymentId.value, now)];
      code := Http.Ok;
    }
  }
}
