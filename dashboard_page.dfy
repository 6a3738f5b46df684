/**
 * The provider dashboard: where it redirects, when it fetches, and the four
 * figures it derives from the bookings and tools the server returns.
 */
module DashboardPage {
  import opened Wrappers
  import Users
  import Bookings
  import AuthContext
  import ApiClient
  import ClientUtils
  import AdminDashboard
  import AdminGuard

  /** A booking as the client reads it: the stored choice values and the total in paise. */
  datatype Row = Row(status: string, paymentStatus: string, totalAmount: int)

  function RowOf(b: Bookings.Booking): (r: Row)
    ensures r.totalAmount == b.totalAmount
    ensures r.paymentStatus == "paid" <==> b.paymentStatus == Bookings.Paid
  {
    Row(Bookings.StatusName(b.status), Bookings.PaymentStatusName(b.paymentStatus), b.totalAmount)
  }

  function Rows(bs: seq<Bookings.Booking>): (rs: seq<Row>)
    ensures |rs| == |bs| && forall i :: 0 <= i < |bs| ==> rs[i] == RowOf(bs[i])
  {
    seq(|bs|, i requires 0 <= i < |bs| => RowOf(bs[i]))
  }

  /** The page's redirect once its own loading flag is down, in priority order. */
  function Redirect(loading: bool, user: Option<AuthContext.ClientUser>): (r: Option<string>)
    ensures loading ==> r.None?
    ensures !loading && user.None? ==> r == Some("/login")
    ensures !loading && user.Some? && AuthContext.Flag(user.value.isSuperuser) ==> r == Some("/admin")
    ensures !loading && user.Some? && !AuthContext.Flag(user.value.isSuperuser) ==>
      && (user.value.userType == Users.Renter ==> r == Some("/bookings"))
      && (user.value.userType == Users.Provider ==>
            (r == Some("/shops/new") <==> !AuthContext.Flag(user.value.hasShop)))
    ensures r.None? <==> loading || (user.Some? && !AuthContext.Flag(user.value.isSuperuser)
                                     && user.value.userType == Users.Provider && AuthContext.Flag(user.value.hasShop))
  {
    var f := AuthContext.FlagsOf(user);
    if !loading && !f.isAuthenticated then Some("/login")
    else if !loading && AuthContext.Flag(user.value.isSuperuser) then Some("/admin")
    else if !loading && f.isRenter then Some("/bookings")
    else if !loading && !f.hasShop && f.isProvider then Some("/shops/new")
    else None
  }

  /** What the data effect does. */
  datatype Fetch = Load | StopLoading | Wait

  function FetchDecision(user: Option<AuthContext.ClientUser>, token: Option<string>): (d: Fetch)
    ensures d == Load <==> user.Some? && Given(token) && user.value.userType == Users.Provider
    ensures d == Wait <==> user.Some? && !Given(token) && user.value.userType == Users.Provider
  {
    var f := AuthContext.FlagsOf(user);
    if f.isAuthenticated && Given(token) && !f.isRenter then Load
    else if f.isAuthenticated && f.isRenter then StopLoading
    else if !f.isAuthenticated then StopLoading
    else Wait
  }

  /**
   * The page never waits forever inside a session store that keeps its
   * user only together with a non-empty token.
   */
  lemma NoWaitWithSessionToken(user: Option<AuthContext.ClientUser>, token: Option<string>)
    requires user.Some? ==> Given(token)
    ensures FetchDecision(user, token) != Wait
  {
  }

  /** Revenue as the client folds it: front to back, paid rows only. */
  function ClientRevenue(rs: seq<Row>): int
  {
    if rs == [] then 0
    else (if rs[0].paymentStatus == "paid" then rs[0].totalAmount else 0) + ClientRevenue(rs[1..])
  }

  /** The number of rows whose status is one of `statuses`. */
  function CountIn(rs: seq<Row>, statuses: set<string>): (n: nat)
    ensures n <= |rs|
    ensures n == 0 <==> forall i :: 0 <= i < |rs| ==> rs[i].status !in statuses
  {
    if rs == [] then 0
    else (if rs[0].status in statuses then 1 else 0) + CountIn(rs[1..], statuses)
  }

  lemma {:induction false} CountInUnion(rs: seq<Row>, a: set<string>, b: set<string>)
    requires a * b == {}
    ensures CountIn(rs, a + b) == CountIn(rs, a) + CountIn(rs, b)
  {
    if rs != [] {
      CountInUnion(rs[1..], a, b);
      var s := rs[0].status;
      assert s in a + b <==> s in a || s in b;
      assert s !in a * b;
    }
  }

  datatype Stats = Stats(totalRevenue: int, activeRentals: nat, totalInventory: nat, pendingRequests: nat)

  const ActiveStatuses: set<string> := {"active", "confirmed"}
  const PendingStatuses: set<string> := {"pending"}

  function StatsOf(bookings: seq<Row>, toolCount: nat): (s: Stats)
    ensures s.totalRevenue == ClientRevenue(bookings) && s.totalInventory == toolCount
    ensures s.activeRentals == CountIn(bookings, ActiveStatuses)
    ensures s.pendingRequests == CountIn(bookings, PendingStatuses)
    ensures s.activeRentals + s.pendingRequests <= |bookings|
  {
    CountInUnion(bookings, ActiveStatuses, PendingStatuses);
    Stats(ClientRevenue(bookings), CountIn(bookings, ActiveStatuses), toolCount,
          CountIn(bookings, PendingStatuses))
  }

  /** The client's front-to-back revenue over the server's rows equals the admin dashboard's revenue. */
  lemma {:induction false} ClientRevenueMatchesServer(bs: seq<Bookings.Booking>)
    ensures ClientRevenue(Rows(bs)) == AdminDashboard.Revenue(bs)
  {
    if bs != [] {
      ClientRevenueMatchesServer(bs[1..]);
      assert Rows(bs)[1..] == Rows(bs[1..]);
      RevenueFront(bs);
    }
  }

  /** The server's back-to-front revenue also splits off the first booking. */
  lemma {:induction false} RevenueFront(bs: seq<Bookings.Booking>)
    requires bs != []
    ensures AdminDashboard.Revenue(bs) ==
      (if bs[0].paymentStatus == Bookings.Paid then bs[0].totalAmount else 0) + AdminDashboard.Revenue(bs[1..])
  {
    if |bs| > 1 {
      RevenueFront(bs[..|bs| - 1]);
      assert bs[..|bs| - 1][1..] == bs[1..][..|bs[1..]| - 1];
      assert bs[..|bs| - 1][0] == bs[0];
    }
  }

  /** Counting active and pending rows over the server's bookings reads their statuses exactly. */
  lemma {:induction false} CountMatchesStatuses(bs: seq<Bookings.Booking>)
    ensures CountIn(Rows(bs), PendingStatuses) == 0 <==>
      forall i :: 0 <= i < |bs| ==> bs[i].status != Bookings.Pending
    ensures CountIn(Rows(bs), ActiveStatuses) == 0 <==>
      forall i :: 0 <= i < |bs| ==> bs[i].status != Bookings.Active && bs[i].status != Bookings.Confirmed
  {
  }

  class Page {
    var loading: bool
    var stats: Stats

    constructor ()
      ensures loading && stats == Stats(0, 0, 0, 0)
    {
      loading := true;
      stats := Stats(0, 0, 0, 0);
    }

    /**
     * The data effect. `bookingsData` and `toolsData` are the two
     * responses (`None`: the request failed); the figures change only when
     * both arrive, and loading ends whenever a fetch was made.
     */
    method DataEffect(user: Option<AuthContext.ClientUser>, token: Option<string>,
                      bookingsData: Option<ApiClient.Listing<Row>>, toolsData: Option<ApiClient.Listing<nat>>)
      modifies this
      ensures FetchDecision(user, token) == Wait ==> loading == old(loading) && stats == old(stats)
      ensures FetchDecision(user, token) == StopLoading ==> !loading && stats == old(stats)
      ensures FetchDecision(user, token) == Load ==>
        && !loading
        && (bookingsData.Some? && toolsData.Some? ==>
              stats == StatsOf(ApiClient.Normalise(bookingsData.value), |ApiClient.Normalise(toolsData.value)|))
        && (bookingsData.None? || toolsData.None? ==> stats == old(stats))
    {
      var d := FetchDecision(user, token);
      if d == Load {
        if bookingsData.Some? && toolsData.Some? {
          var bookings := ApiClient.Normalise(bookingsData.value);
          var revenue := 0;
          var active := 0;
          var pending := 0;
          var i := 0;
          while i < |bookings|
            invariant 0 <= i <= |bookings|
            invariant revenue + ClientRevenue(bookings[i..]) == ClientRevenue(bookings)
            invariant active + CountIn(bookings[i..], ActiveStatuses) == CountIn(bookings, ActiveStatuses)
            invariant pending + CountIn(bookings[i..], PendingStatuses) == CountIn(bookings, PendingStatuses)
          {
            var b := bookings[i];
            assert bookings[i..][1..] == bookings[i + 1..];
            if b.paymentStatus == "paid" {
              revenue := revenue + b.totalAmount;
            }
            if b.status in ActiveStatuses {
              active := active + 1;
            }
            if b.status in PendingStatuses {
              pending := pending + 1;
            }
            i := i + 1;
          }
          var tools := ApiClient.Normalise(toolsData.value);
          stats := Stats(revenue, active, |tools|, pending);
        }
        loading := false;
      } else if d == StopLoading {
        loading := false;
      }
    }

    /** Nothing is rendered for a missing user or a renter; the skeleton while loading. */
    function Render(user: Option<AuthContext.ClientUser>): (v: AdminGuard.View)
      reads this
      ensures v == AdminGuard.Skeleton <==> loading
      ensures v == AdminGuard.Children <==> !loading && user.Some? && user.value.userType == Users.Provider
    {
      if loading then AdminGuard.Skeleton
      else if user.None? || AuthContext.FlagsOf(user).isRenter then AdminGuard.Nothing
      else AdminGuard.Children
    }
  }
}
