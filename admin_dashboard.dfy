/** The superuser dashboard: its permission, the site statistics, and the user toggles. */
module AdminDashboard {
  import opened Wrappers
  import Http
  import Users
  import Setup
  import Bookings

  const SecondsPerDay: int := 86400
  const RecentDays: int := 30

  /** `IsSuperUser.has_permission`; `None` is an anonymous request. */
  predicate IsSuperUser(u: Option<Users.User>)
  {
    u.Some? && u.value.isSuperuser
  }

  /**
   * The admin views require a signed-in user and the superuser
   * permission; the first adds nothing to the second, so the superuser
   * flag alone decides, and staff rights alone never admit.
   */
  predicate AdminAllowed(u: Option<Users.User>)
    ensures AdminAllowed(u) <==> IsSuperUser(u)
    ensures u.Some? && !u.value.isSuperuser ==> !AdminAllowed(u)
  {
    u.Some? && IsSuperUser(u)
  }

  /**
   * The permission check the admin views run before anything else: an
   * anonymous request fails `IsAuthenticated` (401), a signed-in user who is
   * not a superuser fails `IsSuperUser` (403), and a superuser passes (200).
   */
  function Gate(caller: Option<Users.User>): (code: int)
    ensures code == Http.Ok <==> AdminAllowed(caller)
    ensures caller.None? <==> code == Http.Unauthorized
    ensures code in {Http.Ok, Http.Unauthorized, Http.Forbidden}
  {
    if caller.None? then Http.Unauthorized
    else if !IsSuperUser(caller) then Http.Forbidden
    else Http.Ok
  }

  /** The account the one-time setup endpoint creates passes the admin permission; a newly registered user does not. */
  lemma SetupAdminIsAdmin(id: nat, username: string, email: string, now: int)
    ensures AdminAllowed(Some(Setup.Superuser(id, username, email, now)))
    ensures !AdminAllowed(Some(Users.NewUser(id, username, email, now)))
  {
  }

  /** The sum of `total_amount` over the paid bookings; 0 when there are none. */
  function Revenue(bs: seq<Bookings.Booking>): (r: int)
    ensures (forall i :: 0 <= i < |bs| ==> bs[i].paymentStatus != Bookings.Paid) ==> r == 0
    ensures (forall i :: 0 <= i < |bs| ==> bs[i].paymentStatus == Bookings.Paid ==> bs[i].totalAmount >= 0) ==> r >= 0
  {
    if bs == [] then 0
    else
      var last := bs[|bs| - 1];
      Revenue(bs[..|bs| - 1]) + (if last.paymentStatus == Bookings.Paid then last.totalAmount else 0)
  }

  /** Unpaid and refunded bookings add nothing; with non-negative totals the revenue is non-negative and at most the sum of all totals. */
  lemma {:induction false} RevenueBounds(bs: seq<Bookings.Booking>)
    requires forall i :: 0 <= i < |bs| ==> bs[i].totalAmount >= 0
    ensures 0 <= Revenue(bs) <= TotalOfAll(bs)
    ensures (forall i :: 0 <= i < |bs| ==> bs[i].paymentStatus != Bookings.Paid) ==> Revenue(bs) == 0
  {
    if bs != [] {
      var n := |bs| - 1;
      assert forall i :: 0 <= i < n ==> bs[..n][i].totalAmount >= 0 by {
        forall i | 0 <= i < n ensures bs[..n][i].totalAmount >= 0 {
          assert bs[..n][i] == bs[i];
        }
      }
      RevenueBounds(bs[..n]);
      if forall i :: 0 <= i < |bs| ==> bs[i].paymentStatus != Bookings.Paid {
        assert forall i :: 0 <= i < n ==> bs[..n][i].paymentStatus != Bookings.Paid by {
          forall i | 0 <= i < n ensures bs[..n][i].paymentStatus != Bookings.Paid {
            assert bs[..n][i] == bs[i];
          }
        }
      }
    }
  }

  /** The sum of every booking's total. */
  function TotalOfAll(bs: seq<Bookings.Booking>): int
  {
    if bs == [] then 0 else TotalOfAll(bs[..|bs| - 1]) + bs[|bs| - 1].totalAmount
  }

  /** Appending a booking adds its total exactly when it is paid. */
  lemma RevenueAppend(bs: seq<Bookings.Booking>, b: Bookings.Booking)
    ensures Revenue(bs + [b]) == Revenue(bs) + (if b.paymentStatus == Bookings.Paid then b.totalAmount else 0)
  {
    assert (bs + [b])[..|bs|] == bs;
  }

  /** How many of the timestamps are at or after `cutoff` (`field__gte=cutoff`). */
  function CountSince(ts: seq<int>, cutoff: int): (n: nat)
    ensures n <= |ts|
    ensures n == 0 <==> forall i :: 0 <= i < |ts| ==> ts[i] < cutoff
    ensures n == |ts| <==> forall i :: 0 <= i < |ts| ==> ts[i] >= cutoff
  {
    if ts == [] then 0
    else
      var n := |ts| - 1;
      assert forall i :: 0 <= i < n ==> ts[..n][i] == ts[i];
      CountSince(ts[..n], cutoff) + (if ts[n] >= cutoff then 1 else 0)
  }

  /** An earlier cutoff counts at least as many records. */
  lemma {:induction false} CountSinceMonotone(ts: seq<int>, c1: int, c2: int)
    requires c1 <= c2
    ensures CountSince(ts, c2) <= CountSince(ts, c1)
  {
    if ts != [] {
      CountSinceMonotone(ts[..|ts| - 1], c1, c2);
    }
  }

  function JoinTimes(us: seq<Users.User>): (ts: seq<int>)
    ensures |ts| == |us| && forall i :: 0 <= i < |us| ==> ts[i] == us[i].dateJoined
  {
    seq(|us|, i requires 0 <= i < |us| => us[i].dateJoined)
  }

  function CreationTimes(bs: seq<Bookings.Booking>): (ts: seq<int>)
    ensures |ts| == |bs| && forall i :: 0 <= i < |bs| ==> ts[i] == bs[i].createdAt
  {
    seq(|bs|, i requires 0 <= i < |bs| => bs[i].createdAt)
  }

  datatype Stats = Stats(totalUsers: nat, totalTools: nat, totalBookings: nat, totalRevenue: int,
                         newUsers: nat, newBookings: nat)

  /** `AdminStatsView.get`: counts, paid revenue, and what was added in the last thirty days. */
  function AdminStats(us: seq<Users.User>, toolCount: nat, bs: seq<Bookings.Booking>, now: int): (s: Stats)
    ensures s.totalUsers == |us| && s.totalTools == toolCount && s.totalBookings == |bs|
    ensures s.totalRevenue == Revenue(bs)
    ensures s.newUsers <= s.totalUsers && s.newBookings <= s.totalBookings
    ensures s.newUsers == CountSince(JoinTimes(us), now - RecentDays * SecondsPerDay)
    ensures s.newBookings == CountSince(CreationTimes(bs), now - RecentDays * SecondsPerDay)
  {
    var cutoff := now - RecentDays * SecondsPerDay;
    Stats(|us|, toolCount, |bs|, Revenue(bs), CountSince(JoinTimes(us), cutoff), CountSince(CreationTimes(bs), cutoff))
  }

  datatype StatsResponse = StatsResponse(code: int, stats: Option<Stats>)

  /** `AdminStatsView.get` behind its permission check: the statistics go to a superuser only. */
  function StatsView(caller: Option<Users.User>, us: seq<Users.User>, toolCount: nat, bs: seq<Bookings.Booking>,
                     now: int): (r: StatsResponse)
    ensures r.code == Gate(caller)
    ensures r.stats.Some? <==> AdminAllowed(caller)
    ensures AdminAllowed(caller) ==> r.stats == Some(AdminStats(us, toolCount, bs, now))
  {
    if Gate(caller) != Http.Ok then StatsResponse(Gate(caller), None)
    else StatsResponse(Http.Ok, Some(AdminStats(us, toolCount, bs, now)))
  }

  /** The user after `toggle_verify`. */
  function VerifyToggled(u: Users.User): (r: Users.User)
    ensures r.isVerified == !u.isVerified && r.(isVerified := u.isVerified) == u
  {
    u.(isVerified := !u.isVerified)
  }

  /** The user after `toggle_active`. */
  function ActiveToggled(u: Users.User): (r: Users.User)
    ensures r.isActive == !u.isActive && r.(isActive := u.isActive) == u
  {
    u.(isActive := !u.isActive)
  }

  /** Each toggle undoes itself, and the two do not interfere. */
  lemma TogglesAreInvolutions(u: Users.User)
    ensures VerifyToggled(VerifyToggled(u)) == u
    ensures ActiveToggled(ActiveToggled(u)) == u
    ensures VerifyToggled(ActiveToggled(u)) == ActiveToggled(VerifyToggled(u))
  {
  }

  /**
   * `toggle_verify` on row `i`: a caller who is not a superuser is refused
   * (401 or 403) and nothing changes; for a superuser, 404 for a missing
   * row, otherwise the flag is negated and its new value reported.
   */
  method ToggleVerify(table: Users.UserTable, caller: Option<Users.User>, i: int)
    returns (code: int, isVerified: Option<bool>)
    modifies table
    ensures !AdminAllowed(caller) ==> code == Gate(caller) && isVerified.None? && table.users == old(table.users)
    ensures AdminAllowed(caller) && !(0 <= i < |old(table.users)|) ==>
      code == Http.NotFound && isVerified.None? && table.users == old(table.users)
    ensures AdminAllowed(caller) && 0 <= i < |old(table.users)| ==>
      && code == Http.Ok
      && table.users == old(table.users)[i := VerifyToggled(old(table.users)[i])]
      && isVerified == Some(table.users[i].isVerified) && isVerified == Some(!old(table.users)[i].isVerified)
  {
    if Gate(caller) != Http.Ok {
      return Gate(caller), None;
    }
    if !(0 <= i < |table.users|) {
      return Http.NotFound, None;
    }
    table.Put(i, VerifyToggled(table.users[i]));
    return Http.Ok, Some(table.users[i].isVerified);
  }

  /**
   * `toggle_active` on row `i`: a caller who is not a superuser is refused
   * (401 or 403) and nothing changes; for a superuser, 404 for a missing
   * row, otherwise the flag is negated and its new value reported.
   */
  method ToggleActive(table: Users.UserTable, caller: Option<Users.User>, i: int)
    returns (code: int, isActive: Option<bool>)
    modifies table
    ensures !AdminAllowed(caller) ==> code == Gate(caller) && isActive.None? && table.users == old(table.users)
    ensures AdminAllowed(caller) && !(0 <= i < |old(table.users)|) ==>
      code == Http.NotFound && isActive.None? && table.users == old(table.users)
    ensures AdminAllowed(caller) && 0 <= i < |old(table.users)| ==>
      && code == Http.Ok
      && table.users == old(table.users)[i := ActiveToggled(old(table.users)[i])]
      && isActive == Some(table.users[i].isActive) && isActive == Some(!old(table.users)[i].isActive)
  {
    if Gate(caller) != Http.Ok {
      return Gate(caller), None;
    }
    if !(0 <= i < |table.users|) {
      return Http.NotFound, None;
    }
    table.Put(i, ActiveToggled(table.users[i]));
    return Http.Ok, Some(table.users[i].isActive);
  }
}
