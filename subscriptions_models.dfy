/**
 * The provider subscription record: created pending with an order id,
 * activated for thirty days once its payment is verified.
 */
module Subscriptions {
  import opened Wrappers

  datatype Status = Active | Expired | Pending

  /** Amounts are in paise: 200.00 INR. */
  const DefaultAmount: int := 20000

  /** A subscription row; datetimes are in seconds. */
  datatype Subscription = Subscription(
    user: nat,
    start: Option<int>,
    end: Option<int>,
    status: Status,
    orderId: Option<string>,
    paymentId: string,
    amount: int)

  /** A new row with the model's defaults: pending, no period, no payment, 200.00. */
  function NewSubscription(user: nat, orderId: Option<string>): (s: Subscription)
    ensures s.status == Pending && s.amount == DefaultAmount
    ensures s.user == user && s.orderId == orderId
    ensures s.start.None? && s.end.None? && s.paymentId == ""
  {
    Subscription(user, None, None, Pending, orderId, "", DefaultAmount)
  }

  /** `is_active`: active, with an end date, and that end date still ahead. */
  predicate IsActive(s: Subscription, now: int)
  {
    s.status == Active && s.end.Some? && s.end.value > now
  }

  /** A subscription stops being active at the very instant of its end date, and a new one is never active. */
  lemma IsActiveBoundary(s: Subscription, now: int, user: nat, orderId: Option<string>)
    ensures s.end == Some(now) ==> !IsActive(s, now)
    ensures !IsActive(NewSubscription(user, orderId), now)
    ensures s.status == Active && s.end.Some? ==> (IsActive(s, now) <==> now < s.end.value)
  {
  }

  /** The order id column is unique; rows without an order id are not constrained. */
  predicate UniqueOrderIds(subs: seq<Subscription>)
  {
    forall i, j :: 0 <= i < j < |subs| && subs[i].orderId.Some? ==> subs[i].orderId != subs[j].orderId
  }

  /** `Subscription.objects.get(razorpay_order_id=order)`: the one row with that order id, if any. */
  function Lookup(subs: seq<Subscription>, order: string): (r: Option<nat>)
    requires UniqueOrderIds(subs)
    ensures r.None? <==> forall i :: 0 <= i < |subs| ==> subs[i].orderId != Some(order)
    ensures r.Some? ==> r.value < |subs| && subs[r.value].orderId == Some(order)
    ensures r.Some? ==> forall i :: 0 <= i < |subs| && subs[i].orderId == Some(order) ==> i == r.value
  {
    if subs == [] then None
    else
      var n := |subs| - 1;
      if subs[n].orderId == Some(order) then Some(n)
      else Lookup(subs[..n], order)
  }
}
