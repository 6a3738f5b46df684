/**
 * The booking model: statuses, payment fields and defaults, and the
 * duration/total computation that runs on every save.
 */
module Bookings {
  import opened Wrappers
  import Shops

  datatype Status = Pending | Confirmed | Active | Returned | Cancelled
  /** `Unpaid` is the source's payment status 'pending'. */
  datatype PaymentStatus = Unpaid | Paid | Refunded
  datatype PaymentMethod = Razorpay | CashOnReturn

  /** The stored value of each status, as the client receives it. */
  function StatusName(s: Status): string
  {
    match s
    case Pending => "pending"
    case Confirmed => "confirmed"
    case Active => "active"
    case Returned => "returned"
    case Cancelled => "cancelled"
  }

  function PaymentStatusName(p: PaymentStatus): string
  {
    match p
    case Unpaid => "pending"
    case Paid => "paid"
    case Refunded => "refunded"
  }

  function PaymentMethodName(m: PaymentMethod): string
  {
    match m
    case Razorpay => "razorpay"
    case CashOnReturn => "cash_on_return"
  }

  /** Distinct choices are stored as distinct values, so the client can tell them apart. */
  lemma NamesDistinct(s1: Status, s2: Status, p1: PaymentStatus, p2: PaymentStatus, m1: PaymentMethod, m2: PaymentMethod)
    ensures StatusName(s1) == StatusName(s2) <==> s1 == s2
    ensures PaymentStatusName(p1) == PaymentStatusName(p2) <==> p1 == p2
    ensures PaymentMethodName(m1) == PaymentMethodName(m2) <==> m1 == m2
  {
  }

  const SecondsPerHour: int := 3600

  /**
   * A booking row. Money is in paise, datetimes in seconds; `tool` is the
   * tool's position in the tools table.
   */
  datatype Booking = Booking(
    renter: nat,
    tool: nat,
    shop: Shops.Shop,
    quantity: int,
    start: Option<int>,
    end: Option<int>,
    durationHours: int,
    rentalPrice: int,
    depositAmount: int,
    totalAmount: int,
    status: Status,
    paymentStatus: PaymentStatus,
    paymentMethod: PaymentMethod,
    orderId: Option<string>,
    paymentId: Option<string>,
    notes: string,
    createdAt: int)

  /** Python's `int()` of the quotient `n / d`: truncation toward zero. */
  function TruncDiv(n: int, d: int): (q: int)
    requires d > 0
    ensures n >= 0 ==> q * d <= n < (q + 1) * d
    ensures n <= 0 ==> q <= 0 && (q - 1) * d < n <= q * d
  {
    if n >= 0 then n / d else -((-n) / d)
  }

  /** `max(1, int(seconds / 3600))`: whole hours, at least one. */
  function DurationHours(seconds: int): (h: int)
    ensures h >= 1
    ensures seconds >= SecondsPerHour ==> h * SecondsPerHour <= seconds < (h + 1) * SecondsPerHour
    ensures seconds < 2 * SecondsPerHour ==> h == 1
  {
    var q := TruncDiv(seconds, SecondsPerHour);
    if q > 1 then q else 1
  }

  /** The quantity that is billed: a falsy (zero) quantity counts as one. */
  function BilledQuantity(quantity: int): int
  {
    if quantity == 0 then 1 else quantity
  }

  /** `rental_price * (quantity or 1) + deposit_amount`. */
  function TotalAmount(rentalPrice: int, quantity: int, deposit: int): (total: int)
    ensures rentalPrice >= 0 && quantity >= 0 && deposit >= 0 ==> total >= deposit >= 0
    ensures quantity >= 1 ==> total - deposit == rentalPrice * quantity
  {
    rentalPrice * BilledQuantity(quantity) + deposit
  }

  /** Zero quantity is priced exactly as a quantity of one. */
  lemma ZeroQuantityPricedAsOne(rentalPrice: int, deposit: int)
    ensures TotalAmount(rentalPrice, 0, deposit) == TotalAmount(rentalPrice, 1, deposit)
  {
  }

  /** The total grows with the quantity when the price is positive. */
  lemma {:induction false} TotalMonotoneInQuantity(rentalPrice: int, q1: int, q2: int, deposit: int)
    requires rentalPrice >= 0 && 1 <= q1 <= q2
    ensures TotalAmount(rentalPrice, q1, deposit) <= TotalAmount(rentalPrice, q2, deposit)
  {
    assert rentalPrice * q1 <= rentalPrice * q2 by {
      assert rentalPrice * q2 - rentalPrice * q1 == rentalPrice * (q2 - q1);
    }
  }

  /** A new booking with the model defaults: pending, unpaid, Razorpay, no payment ids. */
  function NewBooking(renter: nat, tool: nat, shop: Shops.Shop, quantity: int,
                      start: int, end: int, rentalPrice: int, deposit: int,
                      payMethod: PaymentMethod, notes: string, createdAt: int): (b: Booking)
    ensures b.status == Pending && b.paymentStatus == Unpaid
    ensures b.orderId == None && b.paymentId == None
    ensures b.renter == renter && b.tool == tool && b.shop == shop && b.quantity == quantity
    ensures b.start == Some(start) && b.end == Some(end) && b.createdAt == createdAt
  {
    Booking(renter, tool, shop, quantity, Some(start), Some(end), 0, rentalPrice, deposit, 0,
            Pending, Unpaid, payMethod, None, None, notes, createdAt)
  }

  /** The payment method when the request leaves it out. */
  const DefaultPaymentMethod: PaymentMethod := Razorpay

  /**
   * `Booking.save`: when both datetimes are set, recompute the duration and
   * the total; otherwise leave every field as it was.
   */
  method Save(b: Booking) returns (saved: Booking)
    ensures b.start.Some? && b.end.Some? ==>
      saved == b.(durationHours := DurationHours(b.end.value - b.start.value),
                  totalAmount := TotalAmount(b.rentalPrice, b.quantity, b.depositAmount))
    ensures !(b.start.Some? && b.end.Some?) ==> saved == b
    ensures b.start.Some? && b.end.Some? ==> saved.durationHours >= 1
    ensures b.start.Some? && b.end.Some? && b.rentalPrice >= 0 && b.quantity >= 0 && b.depositAmount >= 0
      ==> saved.totalAmount >= 0
  {
    saved := b;
    if b.start.Some? && b.end.Some? {
      var duration := b.end.value - b.start.value;
      saved := saved.(durationHours := DurationHours(duration));
      var quantity := BilledQuantity(b.quantity);
      saved := saved.(totalAmount := b.rentalPrice * quantity + b.depositAmount);
    }
  }
}
