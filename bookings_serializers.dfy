/**
 * Booking creation: the serializer's field checks, its ordered `validate`
 * chain, and `create`, which takes the booked quantity out of the tool's
 * available stock.
 */
module BookingCreate {
  import opened Wrappers
  import Http
  import Tools
  import Shops
  import Bookings
  import Inventory

  /** The writable fields a create request may carry (`None` = left out). */
  datatype Request = Request(
    toolId: Option<int>,
    quantity: Option<int>,
    start: Option<int>,
    end: Option<int>,
    rentalPrice: Option<int>,
    deposit: Option<int>,
    paymentMethod: Option<Bookings.PaymentMethod>,
    notes: Option<string>)

  datatype Error =
    | FieldErrors(keys: set<string>)   // field-level checks, all reported together
    | ToolNotFound                     // keyed `tool_id`
    | NotEnoughStock(available: int)   // keyed `quantity`
    | BadDates                         // keyed `end_datetime`
    | Crash                            // an uncaught exception: 500

  /** The key the client sees for each error. */
  function ErrorKeys(e: Error): set<string>
  {
    match e
    case FieldErrors(keys) => keys
    case ToolNotFound => {"tool_id"}
    case NotEnoughStock(_) => {"quantity"}
    case BadDates => {"end_datetime"}
    case Crash => {}
  }

  /** The fields the create serializer accepts from a client. */
  const CreateFields: set<string> := {"tool_id", "quantity", "start_datetime", "end_datetime",
                                      "rental_price", "deposit_amount", "payment_method", "notes"}

  /**
   * The field-level checks that run before `validate`: the required fields
   * (those of the model without a default) and the model's minimum-value
   * validators.
   */
  function FieldCheck(r: Request): (keys: set<string>)
    ensures "tool_id" in keys <==> r.toolId.None?
    ensures "rental_price" in keys <==> r.rentalPrice.None? || r.rentalPrice.value < 0
    ensures "quantity" in keys <==> r.quantity.Some? && r.quantity.value < 1
    ensures "start_datetime" in keys <==> r.start.None?
    ensures "end_datetime" in keys <==> r.end.None?
    ensures "deposit_amount" in keys <==> r.deposit.Some? && r.deposit.value < 0
    ensures keys <= CreateFields
  {
    (if r.toolId.None? then {"tool_id"} else {})
    + (if r.quantity.Some? && r.quantity.value < 1 then {"quantity"} else {})
    + (if r.start.None? then {"start_datetime"} else {})
    + (if r.end.None? then {"end_datetime"} else {})
    + (if r.rentalPrice.None? || r.rentalPrice.value < 0 then {"rental_price"} else {})
    + (if r.deposit.Some? && r.deposit.value < 0 then {"deposit_amount"} else {})
  }

  /** A tool id that names a row of the tools table. */
  predicate KnownTool(tools: seq<Tools.Tool>, id: int)
  {
    0 <= id < |tools|
  }

  /** The outcome of validating a request: the tool's row and the quantity to book, or an error. */
  datatype Decision = Reject(error: Error) | Accept(tool: nat, quantity: int)

  /**
   * `validate`, after the field checks: the tool must exist, then the
   * requested quantity (1 when left out) must not exceed what is available,
   * then the start must come before the end.
   */
  function Validate(r: Request, tools: seq<Tools.Tool>): (d: Decision)
    requires FieldCheck(r) == {}
    ensures d == Reject(ToolNotFound) <==> !KnownTool(tools, r.toolId.value)
    ensures d.Reject? && d.error.NotEnoughStock? <==>
      KnownTool(tools, r.toolId.value) && tools[r.toolId.value].quantityAvailable < r.quantity.GetOr(1)
    ensures d == Reject(BadDates) <==>
      KnownTool(tools, r.toolId.value) && tools[r.toolId.value].quantityAvailable >= r.quantity.GetOr(1)
      && r.start.value >= r.end.value
    ensures d.Accept? ==> d.tool == r.toolId.value && d.quantity == r.quantity.GetOr(1)
    ensures d.Accept? ==> d.tool < |tools| && 1 <= d.quantity <= tools[d.tool].quantityAvailable
    ensures d.Accept? ==> r.start.value < r.end.value
  {
    var id := r.toolId.value;
    var quantity := r.quantity.GetOr(1);
    if !KnownTool(tools, id) then Reject(ToolNotFound)
    else if tools[id].quantityAvailable < quantity then Reject(NotEnoughStock(tools[id].quantityAvailable))
    else if r.start.value >= r.end.value then Reject(BadDates)
    else Accept(id, quantity)
  }

  /** The whole serializer decision: field checks first, then `validate`. */
  function Decide(r: Request, tools: seq<Tools.Tool>): (d: Decision)
    ensures FieldCheck(r) != {} ==> d == Reject(FieldErrors(FieldCheck(r)))
    ensures FieldCheck(r) == {} ==> d == Validate(r, tools)
    ensures d.Accept? ==> d.tool < |tools| && 1 <= d.quantity <= tools[d.tool].quantityAvailable
  {
    var keys := FieldCheck(r);
    if keys != {} then Reject(FieldErrors(keys)) else Validate(r, tools)
  }

  /**
   * `validate` then `create` as the source has them: `create` reads
   * `validated_data['quantity']`, which is missing when the request left the
   * quantity out, so that request ends in an uncaught KeyError.
   */
  function DecideAsWritten(r: Request, tools: seq<Tools.Tool>): (d: Decision)
  {
    var d := Decide(r, tools);
    if d.Accept? && r.quantity.None? then Reject(Crash) else d
  }

  /**
   * A request for an existing tool with stock, valid dates and no quantity
   * passes `validate` (which books one unit) yet crashes in `create`.
   */
  lemma OmittedQuantityCrashesAsWritten(tools: seq<Tools.Tool>, id: nat, start: int, end: int)
    requires id < |tools| && tools[id].quantityAvailable >= 1 && start < end
    ensures var r := Request(Some(id), None, Some(start), Some(end), Some(0), None, None, None);
      Decide(r, tools) == Accept(id, 1) && DecideAsWritten(r, tools) == Reject(Crash)
  {
  }

  /** When the request carries a quantity, the source and the corrected decision agree. */
  lemma AsWrittenAgreesWithQuantity(r: Request, tools: seq<Tools.Tool>)
    requires r.quantity.Some?
    ensures DecideAsWritten(r, tools) == Decide(r, tools)
  {
  }

  /**
   * The booking `create` saves for an accepted request: the model's
   * defaults (pending, unpaid, no gateway ids), the request's fields (a
   * left-out payment method is Razorpay, left-out notes are empty, a
   * left-out deposit is 0), and the duration and total that `Booking.save`
   * computes.
   */
  function CreatedBooking(renter: nat, t: nat, shop: Shops.Shop, q: int, r: Request, now: int): (b: Bookings.Booking)
    requires r.start.Some? && r.end.Some? && r.rentalPrice.Some?
    ensures b.renter == renter && b.tool == t && b.shop == shop && b.quantity == q
    ensures b.start == r.start && b.end == r.end && b.createdAt == now
    ensures b.status == Bookings.Pending && b.paymentStatus == Bookings.Unpaid
    ensures b.orderId == None && b.paymentId == None
    ensures b.paymentMethod == r.paymentMethod.GetOr(Bookings.DefaultPaymentMethod) && b.notes == r.notes.GetOr("")
    ensures b.rentalPrice == r.rentalPrice.value && b.depositAmount == r.deposit.GetOr(0)
    ensures b.durationHours == Bookings.DurationHours(r.end.value - r.start.value)
    ensures b.totalAmount == Bookings.TotalAmount(r.rentalPrice.value, q, r.deposit.GetOr(0))
  {
    Bookings.NewBooking(renter, t, shop, q, r.start.value, r.end.value, r.rentalPrice.value, r.deposit.GetOr(0),
                        r.paymentMethod.GetOr(Bookings.DefaultPaymentMethod), r.notes.GetOr(""), now)
      .(durationHours := Bookings.DurationHours(r.end.value - r.start.value),
        totalAmount := Bookings.TotalAmount(r.rentalPrice.value, q, r.deposit.GetOr(0)))
  }

  /**
   * The money of an accepted booking comes from the validated price and
   * deposit alone: the total is the rental price times the booked
   * quantity plus the deposit, never below the deposit, which is never
   * negative; and the booking lasts at least one hour.
   */
  lemma AcceptedBookingPriced(r: Request, tools: seq<Tools.Tool>, renter: nat, now: int)
    requires Decide(r, tools).Accept?
    ensures r.start.Some? && r.end.Some? && r.rentalPrice.Some?
    ensures var d := Decide(r, tools);
      var b := CreatedBooking(renter, d.tool, tools[d.tool].shop, d.quantity, r, now);
      && b.totalAmount == b.rentalPrice * b.quantity + b.depositAmount
      && b.totalAmount >= b.depositAmount >= 0
      && b.rentalPrice >= 0 && b.durationHours >= 1
  {
    var d := Decide(r, tools);
    var b := CreatedBooking(renter, d.tool, tools[d.tool].shop, d.quantity, r, now);
    assert b.rentalPrice * b.quantity >= 0;
  }

  datatype Response = Response(code: int, booking: Option<nat>, error: Option<Error>)

  /**
   * `BookingViewSet.create`: on acceptance, take the quantity out of the
   * tool's available stock and append a pending booking for `renter`
   * whose shop is the tool's shop, priced by `Booking.save`. Nothing changes
   * on rejection. A quantity left out books one unit. `now` is the
   * creation time.
   */
  method Create(db: Inventory.Marketplace, renter: nat, now: int, r: Request) returns (resp: Response)
    requires db.Valid()
    modifies db
    ensures db.Valid() && db.stock == old(db.stock)
    ensures var d := Decide(r, old(db.tools));
      match d
      case Reject(e) =>
        resp == Response(Http.BadRequest, None, Some(e)) && db.tools == old(db.tools) && db.bookings == old(db.bookings)
      case Accept(t, q) =>
        var tool := old(db.tools)[t];
        && resp.code == Http.Created && resp.booking == Some(|old(db.bookings)|)
        && db.tools == old(db.tools)[t := tool.(quantityAvailable := tool.quantityAvailable - q)]
        && |db.bookings| == |old(db.bookings)| + 1
        && db.bookings[..|old(db.bookings)|] == old(db.bookings)
        && var b := db.bookings[|old(db.bookings)|];
        && b.renter == renter && b.tool == t && b.shop == tool.shop && b.quantity == q
        && b.status == Bookings.Pending && b.paymentStatus == Bookings.Unpaid && b.createdAt == now
        && b.rentalPrice == r.rentalPrice.value && b.depositAmount == r.deposit.GetOr(0)
        && b.totalAmount == Bookings.TotalAmount(b.rentalPrice, q, b.depositAmount)
        && b.durationHours == Bookings.DurationHours(r.end.value - r.start.value)
        && b == CreatedBooking(renter, t, tool.shop, q, r, now)
  {
    var d := Decide(r, db.tools);
    if d.Reject? {
      return Response(Http.BadRequest, None, Some(d.error));
    }
    var t, q := d.tool, d.quantity;
    var tool := db.tools[t];
    // Decrement quantity
    db.tools := db.tools[t := tool.(quantityAvailable := tool.quantityAvailable - q)];
    var created := Bookings.NewBooking(renter, t, tool.shop, q, r.start.value, r.end.value,
                                     r.rentalPrice.value, r.deposit.GetOr(0),
                                     r.paymentMethod.GetOr(Bookings.DefaultPaymentMethod),
                                     r.notes.GetOr(""), now);
    var saved := Bookings.Save(created);
    forall u | 0 <= u < |db.tools|
      ensures db.tools[u].quantityAvailable + Inventory.Held(db.bookings + [saved], u) == db.stock[u]
    {
      Inventory.HeldAppend(db.bookings, saved, u);
    }
    resp := Response(Http.Created, Some(|db.bookings|), None);
    db.bookings := db.bookings + [saved];
  }
}
