/**
 * The booking form shown on a tool page: the day count and price estimate
 * it derives from the chosen dates, when its submit button is enabled, and
 * what submitting sends and where it navigates.
 */
module BookingModal {
  import opened Wrappers
  import Bookings
  import BookingCreate
  import Tools

  /** Milliseconds in a day. */
  const DayMs: int := 1000 * 60 * 60 * 24

  function Abs(x: int): nat
  {
    if x < 0 then -x else x
  }

  /** `Math.ceil(n / d)` for a non-negative `n` and a positive `d`. */
  function CeilDiv(n: nat, d: int): (k: nat)
    requires d > 0
    ensures k * d >= n
    ensures k > 0 ==> (k - 1) * d < n
  {
    (n + d - 1) / d
  }

  /**
   * The rental length in days between two dates given in milliseconds:
   * whole days rounded up, in either order, and never less than one
   * (`diffDays || 1`).
   */
  function DayCount(startMs: int, endMs: int): (days: nat)
    ensures days >= 1
    ensures days * DayMs >= Abs(endMs - startMs)
    ensures days > 1 ==> (days - 1) * DayMs < Abs(endMs - startMs)
    ensures Abs(endMs - startMs) <= DayMs ==> days == 1
  {
    var d := CeilDiv(Abs(endMs - startMs), DayMs);
    if d == 0 then 1 else d
  }

  /** Swapping the two dates gives the same count. */
  lemma DayCountSymmetric(startMs: int, endMs: int)
    ensures DayCount(startMs, endMs) == DayCount(endMs, startMs)
  {
    assert Abs(endMs - startMs) == Abs(startMs - endMs);
  }

  /**
   * The estimate shown to the renter: the day price for every day and
   * every unit, plus the deposit. For at least one unit it is the total
   * the server computes from a rental price of one unit for all days.
   */
  function Estimate(pricePerDay: int, deposit: int, days: int, quantity: int): (e: int)
    ensures quantity >= 1 ==> e == Bookings.TotalAmount(pricePerDay * days, quantity, deposit)
    ensures pricePerDay >= 0 && days >= 0 && quantity >= 0 ==> e >= deposit
  {
    pricePerDay * days * quantity + deposit
  }

  /** A longer rental is never estimated cheaper. */
  lemma {:induction false} EstimateMonotoneInDays(pricePerDay: int, deposit: int, d1: int, d2: int, quantity: int)
    requires pricePerDay >= 0 && quantity >= 0 && d1 <= d2
    ensures Estimate(pricePerDay, deposit, d1, quantity) <= Estimate(pricePerDay, deposit, d2, quantity)
  {
    var gap := d2 - d1;
    assert pricePerDay * d2 == pricePerDay * d1 + pricePerDay * gap;
    assert pricePerDay * gap >= 0;
    assert pricePerDay * d2 * quantity == pricePerDay * d1 * quantity + pricePerDay * gap * quantity;
    assert pricePerDay * gap * quantity >= 0;
  }

  /** The JSON body the form posts to the booking endpoint. */
  datatype Payload = Payload(
    toolId: int,
    startMs: int,
    endMs: int,
    quantity: int,
    paymentMethod: Bookings.PaymentMethod,
    notes: string)

  /** The request the server's create serializer receives from that body. */
  function ToRequest(p: Payload): (r: BookingCreate.Request)
    ensures r.toolId == Some(p.toolId) && r.quantity == Some(p.quantity)
    ensures r.rentalPrice.None? && r.deposit.None?
  {
    BookingCreate.Request(Some(p.toolId), Some(p.quantity), Some(p.startMs / 1000), Some(p.endMs / 1000),
                          None, None, Some(p.paymentMethod), Some(p.notes))
  }

  /**
   * The form never sends `rental_price`, which the server requires: every
   * booking the form submits is refused with a field error on that key.
   */
  lemma FormRequestsLackRentalPrice(p: Payload, tools: seq<Tools.Tool>)
    ensures "rental_price" in BookingCreate.FieldCheck(ToRequest(p))
    ensures BookingCreate.Decide(ToRequest(p), tools).Reject?
    ensures "rental_price" in BookingCreate.ErrorKeys(BookingCreate.Decide(ToRequest(p), tools).error)
  {
  }

  /**
   * The request the form evidently means to send: the body above with the
   * rental price of one unit for the whole rental (the tool's day price
   * times the day count) and the tool's deposit, the figures its own
   * estimate is built from.
   */
  function ToRequestPriced(p: Payload, tool: Tools.Tool, days: nat): (r: BookingCreate.Request)
    ensures r.toolId == Some(p.toolId) && r.quantity == Some(p.quantity)
    ensures r.rentalPrice == Some(tool.pricePerDay * days) && r.deposit == Some(tool.depositAmount)
    ensures r.start == ToRequest(p).start && r.end == ToRequest(p).end
    ensures r.paymentMethod == Some(p.paymentMethod) && r.notes == Some(p.notes)
  {
    ToRequest(p).(rentalPrice := Some(tool.pricePerDay * days), deposit := Some(tool.depositAmount))
  }

  /**
   * With the price sent, the server accepts a form booking of an existing,
   * valid tool whenever the stock suffices and the start comes first, and
   * the total it saves is exactly the estimate the form showed.
   */
  lemma {:induction false} PricedFormRequestAccepted(p: Payload, tools: seq<Tools.Tool>, days: nat, renter: nat, now: int)
    requires 0 <= p.toolId < |tools| && Tools.FieldsValid(tools[p.toolId])
    requires 1 <= p.quantity <= tools[p.toolId].quantityAvailable
    requires p.startMs / 1000 < p.endMs / 1000
    ensures var r := ToRequestPriced(p, tools[p.toolId], days);
      && BookingCreate.Decide(r, tools) == BookingCreate.Accept(p.toolId, p.quantity)
      && BookingCreate.CreatedBooking(renter, p.toolId, tools[p.toolId].shop, p.quantity, r, now).totalAmount
         == Estimate(tools[p.toolId].pricePerDay, tools[p.toolId].depositAmount, days, p.quantity)
  {
    var tool := tools[p.toolId];
    var r := ToRequestPriced(p, tool, days);
    assert tool.pricePerDay * days >= 0;
    assert BookingCreate.FieldCheck(r) == {};
  }

  class Form {
    var startDate: string
    var endDate: string
    var quantity: int
    var paymentMethod: Bookings.PaymentMethod
    var notes: string
    var duration: nat
    var totalPrice: int
    var loading: bool

    /** A fresh form: no dates, one unit, online payment, nothing computed. */
    constructor ()
      ensures startDate == "" && endDate == "" && notes == ""
      ensures quantity == 1 && paymentMethod == Bookings.Razorpay
      ensures duration == 0 && totalPrice == 0 && !loading
    {
      startDate, endDate, notes := "", "", "";
      quantity := 1;
      paymentMethod := Bookings.Razorpay;
      duration, totalPrice := 0, 0;
      loading := false;
    }

    /**
     * The recalculation effect. `startMs` and `endMs` are the two date
     * fields read as times; nothing is recomputed while either field is empty.
     */
    method Recompute(startMs: int, endMs: int, pricePerDay: int, deposit: int)
      modifies this
      ensures startDate == old(startDate) && endDate == old(endDate) && quantity == old(quantity)
      ensures paymentMethod == old(paymentMethod) && notes == old(notes) && loading == old(loading)
      ensures startDate != "" && endDate != "" ==>
        duration == DayCount(startMs, endMs) && totalPrice == Estimate(pricePerDay, deposit, duration, quantity)
      ensures startDate == "" || endDate == "" ==>
        duration == old(duration) && totalPrice == old(totalPrice)
      ensures startDate != "" && endDate != "" ==> duration >= 1
    {
      if startDate != "" && endDate != "" {
        var days := DayCount(startMs, endMs);
        duration := days;
        totalPrice := pricePerDay * days * quantity + deposit;
      }
    }

    /** The submit button is disabled while sending or while a date is missing. */
    predicate SubmitDisabled()
      reads this
    {
      loading || startDate == "" || endDate == ""
    }

    /**
     * `handleSubmit`. `token` is the session's access token and `sent`
     * whether the server accepted the booking. Without a token nothing is
     * sent and the renter is sent to the login page; otherwise the form's
     * values are posted and, on success, the renter is sent to the
     * bookings page.
     */
    method Submit(token: Option<string>, toolId: int, startMs: int, endMs: int, sent: bool)
      returns (payload: Option<Payload>, navigateTo: Option<string>)
      modifies this
      ensures startDate == old(startDate) && endDate == old(endDate) && quantity == old(quantity)
      ensures paymentMethod == old(paymentMethod) && notes == old(notes)
      ensures duration == old(duration) && totalPrice == old(totalPrice)
      ensures token.None? || token == Some("") ==>
        payload.None? && navigateTo == Some("/login") && loading == old(loading)
      ensures token.Some? && token.value != "" ==>
        && payload == Some(Payload(toolId, startMs, endMs, quantity, paymentMethod, notes))
        && (navigateTo == Some("/bookings") <==> sent)
        && (!sent ==> navigateTo.None?)
        && !loading
    {
      if token.None? || token.value == "" {
        return None, Some("/login");
      }
      loading := true;
      payload := Some(Payload(toolId, startMs, endMs, quantity, paymentMethod, notes));
      navigateTo := if sent then Some("/bookings") else None;
      loading := false;
    }
  }
}
