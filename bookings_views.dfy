/**
 * The booking endpoints: who sees which bookings, and the confirm, cancel,
 * create-payment and verify-payment transitions; plus the notification
 * read flags.
 */
module BookingApi {
  import opened Wrappers
  import Http
  import Users
  import Bookings
  import Inventory

  /** `get_queryset`: a provider sees the bookings of the shops they own, anyone else their own rentals. */
  predicate Visible(caller: Users.User, b: Bookings.Booking)
  {
    if caller.userType == Users.Provider then b.shop.owner == caller.id else b.renter == caller.id
  }

  /** The bookings visible to `caller`, in table order. */
  function Queryset(caller: Users.User, bs: seq<Bookings.Booking>): (r: seq<Bookings.Booking>)
    ensures |r| <= |bs|
    ensures forall i :: 0 <= i < |r| ==> r[i] in bs && Visible(caller, r[i])
    ensures forall i :: 0 <= i < |bs| && Visible(caller, bs[i]) ==> bs[i] in r
    ensures forall b :: b in bs ==> multiset(r)[b] == if Visible(caller, b) then multiset(bs)[b] else 0
  {
    if bs == [] then []
    else
      var init := Queryset(caller, bs[..|bs| - 1]);
      var last := bs[|bs| - 1];
      assert bs == bs[..|bs| - 1] + [last];
      if Visible(caller, last) then init + [last] else init
  }

  /** Providers see exactly the bookings of their shops; renters exactly the ones they rent. */
  lemma QuerysetByRole(caller: Users.User, bs: seq<Bookings.Booking>, b: Bookings.Booking)
    ensures caller.userType == Users.Provider ==>
      (b in Queryset(caller, bs) <==> b in bs && b.shop.owner == caller.id)
    ensures caller.userType == Users.Renter ==>
      (b in Queryset(caller, bs) <==> b in bs && b.renter == caller.id)
  {
    var r := Queryset(caller, bs);
    if b in r {
      var i :| 0 <= i < |r| && r[i] == b;
    }
    if b in bs && Visible(caller, b) {
      var i :| 0 <= i < |bs| && bs[i] == b;
    }
  }

  /** `get_object`: a row that exists but is not in the caller's queryset is not found. */
  predicate Found(db: Inventory.Marketplace, caller: Users.User, id: int)
    reads db
  {
    0 <= id < |db.bookings| && Visible(caller, db.bookings[id])
  }

  /**
   * `confirm`: only the shop owner may confirm, and only a pending booking;
   * then the status alone becomes confirmed.
   */
  method Confirm(db: Inventory.Marketplace, caller: Users.User, id: int) returns (code: int)
    requires db.Valid()
    modifies db
    ensures db.Valid() && db.stock == old(db.stock) && db.tools == old(db.tools)
    ensures !old(Found(db, caller, id)) ==> code == Http.NotFound
    ensures old(Found(db, caller, id)) ==>
      var b := old(db.bookings)[id];
      && (b.shop.owner != caller.id ==> code == Http.Forbidden)
      && (b.shop.owner == caller.id && b.status != Bookings.Pending ==> code == Http.BadRequest)
      && (b.shop.owner == caller.id && b.status == Bookings.Pending ==> code == Http.Ok)
    ensures code == Http.Ok ==>
      db.bookings == old(db.bookings)[id := old(db.bookings)[id].(status := Bookings.Confirmed)]
    ensures code != Http.Ok ==> db.bookings == old(db.bookings)
  {
    if !Found(db, caller, id) {
      return Http.NotFound;
    }
    var b := db.bookings[id];
    if b.shop.owner != caller.id {
      return Http.Forbidden;
    }
    if b.status != Bookings.Pending {
      return Http.BadRequest;
    }
    var confirmed := b.(status := Bookings.Confirmed);
    Inventory.HeldUnchangedBySameHold(db.bookings, id, confirmed);
    db.bookings := db.bookings[id := confirmed];
    code := Http.Ok;
  }

  /** A provider confirming through the API can only reach their own shop's bookings, so a 403 goes to non-providers. */
  lemma ConfirmForbiddenOnlyForRenters(caller: Users.User, b: Bookings.Booking)
    requires Visible(caller, b) && b.shop.owner != caller.id
    ensures caller.userType == Users.Renter && b.renter == caller.id
  {
  }

  /**
   * `cancel`: only the renter or the shop owner may cancel, and not a
   * returned or cancelled booking; then the booked quantity goes back to
   * the tool's available stock and the booking is cancelled. Payment
   * fields are left as they are.
   */
  method Cancel(db: Inventory.Marketplace, caller: Users.User, id: int) returns (code: int)
    requires db.Valid()
    modifies db
    ensures db.Valid() && db.stock == old(db.stock)
    ensures !old(Found(db, caller, id)) ==> code == Http.NotFound
    ensures old(Found(db, caller, id)) ==>
      var b := old(db.bookings)[id];
      && (b.renter != caller.id && b.shop.owner != caller.id ==> code == Http.Forbidden)
      && (((b.renter == caller.id || b.shop.owner == caller.id) && b.status in {Bookings.Returned, Bookings.Cancelled})
           ==> code == Http.BadRequest)
      && (((b.renter == caller.id || b.shop.owner == caller.id) && b.status !in {Bookings.Returned, Bookings.Cancelled})
           ==> code == Http.Ok)
    ensures code == Http.Ok ==>
      var b := old(db.bookings)[id];
      var tool := old(db.tools)[b.tool];
      && db.tools == old(db.tools)[b.tool := tool.(quantityAvailable := tool.quantityAvailable + b.quantity)]
      && db.bookings == old(db.bookings)[id := b.(status := Bookings.Cancelled)]
    ensures code != Http.Ok ==> db.tools == old(db.tools) && db.bookings == old(db.bookings)
  {
    if !Found(db, caller, id) {
      return Http.NotFound;
    }
    var b := db.bookings[id];
    if b.renter != caller.id && b.shop.owner != caller.id {
      return Http.Forbidden;
    }
    if b.status == Bookings.Returned || b.status == Bookings.Cancelled {
      return Http.BadRequest;
    }
    var tool := db.tools[b.tool];
    var cancelled := b.(status := Bookings.Cancelled);
    forall u | 0 <= u < |db.tools|
      ensures Inventory.Held(db.bookings[id := cancelled], u)
              == Inventory.Held(db.bookings, u) - (if u == b.tool then b.quantity else 0)
    {
      Inventory.HeldUpdate(db.bookings, id, cancelled, u);
    }
    // Restore tool quantity
    db.tools := db.tools[b.tool := tool.(quantityAvailable := tool.quantityAvailable + b.quantity)];
    db.bookings := db.bookings[id := cancelled];
    code := Http.Ok;
  }

  /** The booking passes the three checks of `create_payment`: confirmed, not yet paid, paid through Razorpay. */
  predicate PaymentOrderAllowed(b: Bookings.Booking)
  {
    b.status == Bookings.Confirmed && b.paymentStatus != Bookings.Paid && b.paymentMethod == Bookings.Razorpay
  }

  /**
   * `create_payment`, checked in order: confirmed, not yet paid, paid
   * through Razorpay. `order` is the gateway's order id, `None` when the
   * gateway call fails (500). On success only the order id is stored.
   */
  method CreatePayment(db: Inventory.Marketplace, caller: Users.User, id: int, order: Option<string>)
    returns (code: int)
    requires db.Valid()
    modifies db
    ensures db.Valid() && db.stock == old(db.stock) && db.tools == old(db.tools)
    ensures !old(Found(db, caller, id)) ==> code == Http.NotFound
    ensures old(Found(db, caller, id)) ==>
      var b := old(db.bookings)[id];
      && (b.status != Bookings.Confirmed ==> code == Http.BadRequest)
      && (b.status == Bookings.Confirmed && b.paymentStatus == Bookings.Paid ==> code == Http.BadRequest)
      && ((b.status == Bookings.Confirmed && b.paymentStatus != Bookings.Paid && b.paymentMethod != Bookings.Razorpay)
            ==> code == Http.BadRequest)
      && ((b.status == Bookings.Confirmed && b.paymentStatus != Bookings.Paid && b.paymentMethod == Bookings.Razorpay)
            ==> code == (if order.Some? then Http.Ok else Http.ServerError))
    ensures code == Http.Ok <==> old(Found(db, caller, id)) && PaymentOrderAllowed(old(db.bookings)[id]) && order.Some?
    ensures code == Http.Ok ==>
      order.Some? && db.bookings == old(db.bookings)[id := old(db.bookings)[id].(orderId := order)]
    ensures code != Http.Ok ==> db.bookings == old(db.bookings)
  {
    if !Found(db, caller, id) {
      return Http.NotFound;
    }
    var b := db.bookings[id];
    if b.status != Bookings.Confirmed {
      return Http.BadRequest;
    }
    if b.paymentStatus == Bookings.Paid {
      return Http.BadRequest;
    }
    if b.paymentMethod != Bookings.Razorpay {
      return Http.BadRequest;
    }
    if order.None? {
      return Http.ServerError;
    }
    var ordered := b.(orderId := order);
    Inventory.HeldUnchangedBySameHold(db.bookings, id, ordered);
    db.bookings := db.bookings[id := ordered];
    code := Http.Ok;
  }

  /** The fields a verified payment sets: paid, the payment id, and active. */
  function PaidAndActive(b: Bookings.Booking, paymentId: Option<string>): (r: Bookings.Booking)
    ensures r.paymentStatus == Bookings.Paid && r.status == Bookings.Active && r.paymentId == paymentId
    ensures r.(paymentStatus := b.paymentStatus, status := b.status, paymentId := b.paymentId) == b
  {
    b.(paymentStatus := Bookings.Paid, paymentId := paymentId, status := Bookings.Active)
  }

  /**
   * The source promotes any booking it verifies, cancelled ones included: a
   * cancelled booking, whose quantity `cancel` already put back, starts
   * holding stock again without any being taken, so the available quantity
   * plus the held quantity grows by the booking's quantity.
   */
  lemma {:induction false} PromotingCancelledBreaksConservation(bs: seq<Bookings.Booking>, i: nat, paymentId: Option<string>)
    requires i < |bs| && bs[i].status == Bookings.Cancelled
    ensures Inventory.Held(bs[i := PaidAndActive(bs[i], paymentId)], bs[i].tool)
            == Inventory.Held(bs, bs[i].tool) + bs[i].quantity
  {
    Inventory.HeldUpdate(bs, i, PaidAndActive(bs[i], paymentId), bs[i].tool);
  }

  /** Paying a booking that is not cancelled leaves every tool's held quantity as it was. */
  lemma PromotingLiveBookingKeepsHeld(bs: seq<Bookings.Booking>, i: nat, paymentId: Option<string>)
    requires i < |bs| && bs[i].status != Bookings.Cancelled
    ensures forall t :: Inventory.Held(bs[i := PaidAndActive(bs[i], paymentId)], t) == Inventory.Held(bs, t)
  {
    Inventory.HeldUnchangedBySameHold(bs, i, PaidAndActive(bs[i], paymentId));
  }

  /**
   * `verify_payment`: 400 when the payment id or signature is missing, or
   * no order was created; a valid signature (`signatureValid`, the
   * gateway's HMAC check) marks the booking paid and active and stores the
   * payment id; an invalid one is 400. A cancelled booking is refused with
   * 400 and left alone (the source promotes it; see
   * PromotingCancelledBreaksConservation).
   */
  method VerifyPayment(db: Inventory.Marketplace, caller: Users.User, id: int,
                       paymentId: Option<string>, signature: Option<string>, signatureValid: bool)
    returns (code: int)
    requires db.Valid()
    modifies db
    ensures db.Valid() && db.stock == old(db.stock) && db.tools == old(db.tools)
    ensures !old(Found(db, caller, id)) ==> code == Http.NotFound
    ensures old(Found(db, caller, id)) ==>
      var b := old(db.bookings)[id];
      && (!Given(paymentId) || !Given(signature) ==> code == Http.BadRequest)
      && (!Given(b.orderId) ==> code == Http.BadRequest)
      && (!signatureValid ==> code == Http.BadRequest)
      && (b.status == Bookings.Cancelled ==> code == Http.BadRequest)
      && ((Given(paymentId) && Given(signature) && Given(b.orderId) && signatureValid && b.status != Bookings.Cancelled)
           ==> code == Http.Ok)
    ensures code == Http.Ok ==>
      db.bookings == old(db.bookings)[id := PaidAndActive(old(db.bookings)[id], paymentId)]
    ensures code != Http.Ok ==> db.bookings == old(db.bookings)
  {
    if !Found(db, caller, id) {
      return Http.NotFound;
    }
    var b := db.bookings[id];
    if !Given(paymentId) || !Given(signature) {
      return Http.BadRequest;
    }
    if !Given(b.orderId) {
      return Http.BadRequest;
    }
    if !signatureValid || b.status == Bookings.Cancelled {
      return Http.BadRequest;
    }
    PromotingLiveBookingKeepsHeld(db.bookings, id, paymentId);
    db.bookings := db.bookings[id := PaidAndActive(b, paymentId)];
    code := Http.Ok;
  }

  /** A notification row. */
  datatype Notification = Notification(user: nat, title: string, isRead: bool)

  /** The notifications table. */
  class NotificationTable {
    var notes: seq<Notification>

    constructor (initial: seq<Notification>)
      ensures notes == initial
    {
      notes := initial;
    }

    /** `mark_read`: the caller's own notification becomes read; someone else's is not found. */
    method MarkRead(caller: nat, id: int) returns (code: int)
      modifies this
      ensures 0 <= id < |old(notes)| && old(notes)[id].user == caller ==>
        code == Http.Ok && notes == old(notes)[id := old(notes)[id].(isRead := true)]
      ensures !(0 <= id < |old(notes)| && old(notes)[id].user == caller) ==>
        code == Http.NotFound && notes == old(notes)
    {
      if 0 <= id < |notes| && notes[id].user == caller {
        notes := notes[id := notes[id].(isRead := true)];
        code := Http.Ok;
      } else {
        code := Http.NotFound;
      }
    }

    /** `mark_all_read`: every notification of the caller becomes read; nobody else's changes. */
    method MarkAllRead(caller: nat)
      modifies this
      ensures |notes| == |old(notes)|
      ensures forall i :: 0 <= i < |notes| && old(notes)[i].user == caller ==>
        notes[i] == old(notes)[i].(isRead := true)
      ensures forall i :: 0 <= i < |notes| && old(notes)[i].user != caller ==> notes[i] == old(notes)[i]
    {
      var before := notes;
      notes := seq(|before|, i requires 0 <= i < |before| =>
                 if before[i].user == caller then before[i].(isRead := true) else before[i]);
    }
  }
}
