/**
 * The bookings list: when it loads, the id and status style shown on each
 * row, and which action buttons each row offers.
 */
module BookingsPage {
  import opened Wrappers
  import Users
  import Bookings
  import BookingApi
  import ClientUtils
  import Text

  /** A booking as the list reads it. */
  datatype Row = Row(id: string, status: string, paymentStatus: string, paymentMethod: string)

  function RowOf(id: string, b: Bookings.Booking): (r: Row)
    ensures r.status == "pending" <==> b.status == Bookings.Pending
    ensures r.status == "confirmed" <==> b.status == Bookings.Confirmed
    ensures r.paymentStatus == "pending" <==> b.paymentStatus == Bookings.Unpaid
    ensures r.paymentMethod == "razorpay" <==> b.paymentMethod == Bookings.Razorpay
  {
    Row(id, Bookings.StatusName(b.status), Bookings.PaymentStatusName(b.paymentStatus),
        Bookings.PaymentMethodName(b.paymentMethod))
  }

  /** Bookings are fetched only for a signed-in visitor with a token; otherwise loading just ends. */
  predicate Loads(isAuthenticated: bool, token: Option<string>)
  {
    isAuthenticated && Given(token)
  }

  /** "Pay Now": a renter's confirmed, unpaid booking paid online. */
  predicate ShowPayNow(r: Row, isRenter: bool)
  {
    r.status == "confirmed" && r.paymentStatus == "pending" && isRenter && r.paymentMethod == "razorpay"
  }

  /** "Authorize Request": a pending booking, for anyone but a renter. */
  predicate ShowAuthorize(r: Row, isRenter: bool)
  {
    r.status == "pending" && !isRenter
  }

  /** The abort/decline button: any pending booking. */
  predicate ShowCancel(r: Row)
  {
    r.status == "pending"
  }

  function CancelLabel(isRenter: bool): string
  {
    if isRenter then "Abort Request" else "Decline Request"
  }

  const Fallback: string := "bg-gray-800 text-gray-400"

  /** `getStatusColor`: a style per known status, the fallback for any other string. */
  function StatusColor(status: string): (c: string)
    ensures status !in {"pending", "confirmed", "active", "returned", "cancelled"} ==> c == Fallback
    ensures status in {"pending", "confirmed", "active", "returned", "cancelled"} ==> c != Fallback
  {
    match status
    case "pending" => "bg-yellow-900/20 text-yellow-500 border border-yellow-900/50"
    case "confirmed" => "bg-blue-900/20 text-blue-500 border border-blue-900/50"
    case "active" => "bg-green-900/20 text-green-500 border border-green-900/50"
    case "returned" => "bg-gray-800 text-gray-400 border border-gray-700"
    case "cancelled" => "bg-red-900/20 text-red-500 border border-red-900/50"
    case _ => Fallback
  }

  /** Every status the server stores has a style of its own. */
  lemma StatusColorsDistinct(s1: Bookings.Status, s2: Bookings.Status)
    ensures StatusColor(Bookings.StatusName(s1)) != Fallback
    ensures s1 != s2 ==> StatusColor(Bookings.StatusName(s1)) != StatusColor(Bookings.StatusName(s2))
  {
    StatusColorIsPalette(s1);
    StatusColorIsPalette(s2);
    if s1 != s2 {
      assert Width(s1) != Width(s2);
    }
  }

  lemma StatusColorIsPalette(s: Bookings.Status)
    ensures StatusColor(Bookings.StatusName(s)) == Palette(s) && Palette(s) != Fallback
    ensures |Palette(s)| == Width(s)
  {
    match s
    case Pending =>
    case Confirmed =>
    case Active =>
    case Returned =>
    case Cancelled =>
  }

  /** The length of each style, which tells them apart. */
  function Width(s: Bookings.Status): nat
  {
    match s
    case Pending => 60
    case Confirmed => 54
    case Active => 57
    case Returned => 48
    case Cancelled => 51
  }

  /** The style of each stored status. */
  function Palette(s: Bookings.Status): string
  {
    match s
    case Pending => "bg-yellow-900/20 text-yellow-500 border border-yellow-900/50"
    case Confirmed => "bg-blue-900/20 text-blue-500 border border-blue-900/50"
    case Active => "bg-green-900/20 text-green-500 border border-green-900/50"
    case Returned => "bg-gray-800 text-gray-400 border border-gray-700"
    case Cancelled => "bg-red-900/20 text-red-500 border border-red-900/50"
  }

  /** The id shown on a row: the part before the first dash (the first group of a UUID). */
  function DisplayId(id: string): (d: string)
    ensures Text.StartsWith(id, d) && '-' !in d
    ensures d == id <==> '-' !in id
  {
    Text.Before(id, '-')
  }

  /**
   * "Pay Now" appears only on bookings the server opens a payment order
   * for: exactly those, less the refunded ones, which the server would
   * also accept. A provider never sees it.
   */
  lemma PayNowMatchesServer(id: string, b: Bookings.Booking)
    ensures ShowPayNow(RowOf(id, b), true) ==> BookingApi.PaymentOrderAllowed(b)
    ensures ShowPayNow(RowOf(id, b), true) <==>
      BookingApi.PaymentOrderAllowed(b) && b.paymentStatus == Bookings.Unpaid
    ensures BookingApi.PaymentOrderAllowed(b) && b.paymentStatus == Bookings.Refunded ==>
      !ShowPayNow(RowOf(id, b), true)
    ensures !ShowPayNow(RowOf(id, b), false)
  {
  }

  /**
   * A provider who is shown "Authorize Request" on a booking in their list
   * owns its shop and the booking is pending: the server confirms it.
   */
  lemma AuthorizeShownOnlyWhenConfirmable(id: string, caller: Users.User, b: Bookings.Booking)
    requires caller.userType == Users.Provider && BookingApi.Visible(caller, b)
    ensures ShowAuthorize(RowOf(id, b), false) <==> b.status == Bookings.Pending
    ensures ShowAuthorize(RowOf(id, b), false) ==> b.shop.owner == caller.id
  {
  }

  /** Whoever sees a cancel button on a listed booking may cancel it and the booking is still open. */
  lemma CancelShownOnlyWhenCancellable(id: string, caller: Users.User, b: Bookings.Booking)
    requires BookingApi.Visible(caller, b) && ShowCancel(RowOf(id, b))
    ensures b.renter == caller.id || b.shop.owner == caller.id
    ensures b.status !in {Bookings.Returned, Bookings.Cancelled}
  {
  }
}
