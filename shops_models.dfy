/**
 * The shop model: its subscription-expiry test and the rating aggregate that
 * is recomputed from the shop's reviews.
 */
module Shops {
  import opened Wrappers

  datatype Tier = Basic | Premium

  /** Sum of a sequence of ratings. */
  function Sum(rs: seq<int>): int
  {
    if rs == [] then 0 else Sum(rs[..|rs| - 1]) + rs[|rs| - 1]
  }

  /** The mean of the ratings, 0 for none (the `Avg` aggregate, and the reset value). */
  function Mean(rs: seq<int>): real
  {
    if rs == [] then 0.0 else Sum(rs) as real / |rs| as real
  }

  /** Every rating lies in `lo..hi`. */
  predicate AllIn(rs: seq<int>, lo: int, hi: int)
  {
    forall i :: 0 <= i < |rs| ==> lo <= rs[i] <= hi
  }

  /** The sum of ratings that lie in `lo..hi` lies between `lo * n` and `hi * n`. */
  lemma {:induction false} SumBounds(rs: seq<int>, lo: int, hi: int)
    requires AllIn(rs, lo, hi)
    ensures lo * |rs| <= Sum(rs) <= hi * |rs|
  {
    if rs != [] {
      var init := rs[..|rs| - 1];
      assert AllIn(init, lo, hi) by {
        forall i | 0 <= i < |init| ensures lo <= init[i] <= hi {
          assert init[i] == rs[i];
        }
      }
      SumBounds(init, lo, hi);
    }
  }

  /** A non-empty set of ratings in 1..5 has a mean in 1..5. */
  lemma MeanWithinRatingBounds(rs: seq<int>)
    requires rs != [] && AllIn(rs, 1, 5)
    ensures 1.0 <= Mean(rs) <= 5.0
  {
    SumBounds(rs, 1, 5);
    var n := |rs| as real;
    assert Sum(rs) as real >= n;
    assert Sum(rs) as real <= 5.0 * n;
  }

  class Shop {
    const id: nat
    const owner: nat
    var ratingAverage: real
    var totalRatings: int
    var tier: Tier
    var subscriptionExpiresAt: Option<int>
    var isActive: bool

    /** A new shop: no ratings, basic tier, active, no subscription expiry. */
    constructor (id: nat, owner: nat)
      ensures this.id == id && this.owner == owner
      ensures ratingAverage == 0.0 && totalRatings == 0
      ensures tier == Basic && isActive && subscriptionExpiresAt == None
    {
      this.id := id;
      this.owner := owner;
      ratingAverage := 0.0;
      totalRatings := 0;
      tier := Basic;
      subscriptionExpiresAt := None;
      isActive := true;
    }

    /** `has_active_subscription`: false without an expiry, otherwise expiry > now. */
    predicate HasActiveSubscription(now: int)
      reads this
    {
      match subscriptionExpiresAt
      case None => false
      case Some(e) => e > now
    }

    /**
     * `update_rating`: `ratings` are the ratings of the reviews whose shop is
     * this one. With reviews the count and mean are stored; with none both
     * reset to 0. Only the two rating fields change.
     */
    method UpdateRating(ratings: seq<int>)
      modifies this`ratingAverage, this`totalRatings
      ensures totalRatings == |ratings|
      ensures ratingAverage == Mean(ratings)
      ensures ratings == [] ==> totalRatings == 0 && ratingAverage == 0.0
      ensures ratings != [] && AllIn(ratings, 1, 5) ==> 1.0 <= ratingAverage <= 5.0
    {
      if |ratings| > 0 {
        totalRatings := |ratings|;
        ratingAverage := Mean(ratings);
        if AllIn(ratings, 1, 5) {
          MeanWithinRatingBounds(ratings);
        }
      } else {
        totalRatings := 0;
        ratingAverage := 0.0;
      }
    }
  }

  /**
   * A shop's subscription, once lapsed, stays lapsed until the expiry is
   * written again; while it holds, it holds at every earlier moment too;
   * and whether it holds is decided by the expiry alone, whatever the
   * shop's tier or activity flag.
   */
  lemma SubscriptionLapsesForGood(s: Shop, s2: Shop, t: int, t2: int)
    requires t <= t2
    ensures !s.HasActiveSubscription(t) ==> !s.HasActiveSubscription(t2)
    ensures s.HasActiveSubscription(t2) ==> s.HasActiveSubscription(t)
    ensures s2.subscriptionExpiresAt == s.subscriptionExpiresAt ==>
      (s2.HasActiveSubscription(t) <==> s.HasActiveSubscription(t))
  {
  }
}
