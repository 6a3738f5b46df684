/** The shop subscription record kept by the payments app. */
module ShopSubscriptions {
  datatype Plan = Monthly | Yearly
  datatype Status = Active | Cancelled | Expired

  /** Amounts are in paise; datetimes in seconds. */
  datatype ShopSubscription = ShopSubscription(
    shop: nat,
    plan: Plan,
    amount: int,
    subscriptionId: string,
    status: Status,
    startsAt: int,
    expiresAt: int)

  /** The smallest amount the validator admits: 0.01 INR. */
  const MinAmount: int := 1

  /** A new row: the status defaults to active. */
  function NewShopSubscription(shop: nat, plan: Plan, amount: int, subscriptionId: string,
                               startsAt: int, expiresAt: int): (s: ShopSubscription)
    ensures s.status == Active
    ensures s.shop == shop && s.plan == plan && s.amount == amount && s.subscriptionId == subscriptionId
    ensures s.startsAt == startsAt && s.expiresAt == expiresAt
  {
    ShopSubscription(shop, plan, amount, subscriptionId, Active, startsAt, expiresAt)
  }

  /** `is_active`: status active and expiry still ahead. */
  predicate IsActive(s: ShopSubscription, now: int)
  {
    s.status == Active && s.expiresAt > now
  }

  /** Cancelled and expired rows are never active, and no row is active at or after its expiry. */
  lemma InactiveStatusesNeverActive(s: ShopSubscription, now: int)
    ensures s.status == Cancelled || s.status == Expired ==> !IsActive(s, now)
    ensures now >= s.expiresAt ==> !IsActive(s, now)
    ensures s.status == Active ==> (IsActive(s, now) <==> now < s.expiresAt)
  {
  }

  /** A new row is active exactly until it expires. */
  lemma NewRowActiveUntilExpiry(shop: nat, plan: Plan, amount: int, id: string, startsAt: int, expiresAt: int, now: int)
    ensures IsActive(NewShopSubscription(shop, plan, amount, id, startsAt, expiresAt), now) <==> now < expiresAt
  {
  }

  /** The field constraints: the amount validator and, across the table, unique Razorpay subscription ids. */
  predicate AmountValid(s: ShopSubscription)
  {
    s.amount >= MinAmount
  }

  predicate UniqueSubscriptionIds(rows: seq<ShopSubscription>)
  {
    forall i, j :: 0 <= i < j < |rows| ==> rows[i].subscriptionId != rows[j].subscriptionId
  }

  /** In a table with unique ids, a Razorpay subscription id names at most one row. */
  function FindBySubscriptionId(rows: seq<ShopSubscription>, id: string): (r: int)
    requires UniqueSubscriptionIds(rows)
    ensures -1 <= r < |rows|
    ensures r == -1 <==> forall i :: 0 <= i < |rows| ==> rows[i].subscriptionId != id
    ensures r >= 0 ==> rows[r].subscriptionId == id && forall i :: 0 <= i < |rows| && rows[i].subscriptionId == id ==> i == r
  {
    if rows == [] then -1
    else if rows[|rows| - 1].subscriptionId == id then |rows| - 1
    else FindBySubscriptionId(rows[..|rows| - 1], id)
  }
}
