/**
 * The tool listing and review models: stock test, field validators, and the
 * review save hook that refreshes the shop's rating.
 */
module Tools {
  import opened Wrappers
  import Http
  import Shops

  datatype Condition = Excellent | Good | Fair

  /** A tool row. Prices are in paise; `shop` is the owning shop. */
  datatype Tool = Tool(
    shop: Shops.Shop,
    name: string,
    description: string,
    condition: Condition,
    images: seq<string>,
    quantityAvailable: int,
    quantityTotal: int,
    pricePerHour: Option<int>,
    pricePerDay: int,
    pricePerWeek: Option<int>,
    depositAmount: int,
    isAvailable: bool)

  /** A tool created with only the required fields set: the model defaults apply. */
  function NewTool(shop: Shops.Shop, name: string, description: string, pricePerDay: int): (t: Tool)
    ensures t.condition == Good && t.images == []
    ensures t.quantityAvailable == 1 && t.quantityTotal == 1
    ensures t.depositAmount == 0 && t.isAvailable
    ensures t.pricePerHour == None && t.pricePerWeek == None
    ensures t.shop == shop && t.pricePerDay == pricePerDay
  {
    Tool(shop, name, description, Good, [], 1, 1, None, pricePerDay, None, 0, true)
  }

  /** `in_stock`. */
  predicate InStock(t: Tool)
  {
    t.quantityAvailable > 0
  }

  /** The smallest price the validators accept: 0.01, one paisa. */
  const MinPrice: int := 1

  /** An optional price passes its validator when absent or at least one paisa. */
  predicate OptionalPriceValid(p: Option<int>)
  {
    p.None? || p.value >= MinPrice
  }

  /** The field validators of the tool model. */
  predicate FieldsValid(t: Tool)
  {
    && t.quantityAvailable >= 0
    && t.quantityTotal >= 1
    && OptionalPriceValid(t.pricePerHour)
    && t.pricePerDay >= MinPrice
    && OptionalPriceValid(t.pricePerWeek)
    && t.depositAmount >= 0
  }

  /** A default-filled tool with a valid daily price passes every validator, and is in stock. */
  lemma NewToolValid(shop: Shops.Shop, name: string, description: string, pricePerDay: int)
    requires pricePerDay >= MinPrice
    ensures FieldsValid(NewTool(shop, name, description, pricePerDay))
    ensures InStock(NewTool(shop, name, description, pricePerDay))
  {
  }

  /** A review row. `booking` is the reviewed booking (one-to-one); `shop` and `tool` are optional references. */
  datatype Review = Review(booking: nat, reviewer: nat, shop: Shops.Shop?, tool: Option<nat>, rating: int)

  /** Some row other than row `except` already reviews `booking` (`except` is -1 for a new row). */
  predicate BookingReviewed(rs: seq<Review>, booking: nat, except: int)
  {
    exists j :: 0 <= j < |rs| && j != except && rs[j].booking == booking
  }

  /** The one-to-one `booking` column: no two reviews share a booking. */
  predicate OneReviewPerBooking(rs: seq<Review>)
  {
    forall i, j :: 0 <= i < j < |rs| ==> rs[i].booking != rs[j].booking
  }

  /** Writing `r` into a table where no other row reviews its booking keeps the column unique. */
  lemma PutFreeBookingKeepsUnique(rs: seq<Review>, i: nat, r: Review)
    requires OneReviewPerBooking(rs) && i <= |rs|
    requires !BookingReviewed(rs, r.booking, i)
    ensures OneReviewPerBooking(if i == |rs| then rs + [r] else rs[i := r])
  {
    var vs := if i == |rs| then rs + [r] else rs[i := r];
    forall a, b | 0 <= a < b < |vs| ensures vs[a].booking != vs[b].booking {
      if a != i && b != i {
        assert vs[a] == rs[a] && vs[b] == rs[b];
      } else if a == i {
        assert vs[b] == rs[b];
      } else {
        assert vs[a] == rs[a];
      }
    }
  }

  /** The rating validators: 1..5. */
  predicate ReviewValid(r: Review)
  {
    1 <= r.rating <= 5
  }

  /** The ratings of the reviews whose shop is `s` (`Review.objects.filter(shop=s)`). */
  function RatingsOf(rs: seq<Review>, s: Shops.Shop): (out: seq<int>)
    ensures |out| <= |rs|
    ensures (forall i :: 0 <= i < |rs| ==> ReviewValid(rs[i])) ==> Shops.AllIn(out, 1, 5)
  {
    if rs == [] then []
    else
      var init := RatingsOf(rs[..|rs| - 1], s);
      var last := rs[|rs| - 1];
      if last.shop == s then init + [last.rating] else init
  }

  /** The reviews table. */
  class ReviewTable {
    var reviews: seq<Review>

    constructor ()
      ensures reviews == []
    {
      reviews := [];
    }

    /**
     * The review `create` action: the serializer refuses (400) a rating
     * outside 1..5 and a booking that already has a review (the unique
     * validator of the one-to-one column); otherwise the review is stored
     * with the caller as reviewer, and `Review.save` recomputes the rating
     * of the shop it names from all of that shop's reviews. The tool
     * branch of `Review.save` does nothing.
     */
    method Create(caller: nat, r: Review) returns (code: int)
      modifies this, r.shop
      ensures code == (if !ReviewValid(r) || BookingReviewed(old(reviews), r.booking, -1) then Http.BadRequest
                       else Http.Created)
      ensures code == Http.Created ==> reviews == old(reviews) + [r.(reviewer := caller)]
      ensures code != Http.Created ==> reviews == old(reviews)
      ensures code == Http.Created && r.shop != null ==>
        r.shop.totalRatings == |RatingsOf(reviews, r.shop)| &&
        r.shop.ratingAverage == Shops.Mean(RatingsOf(reviews, r.shop))
      ensures code != Http.Created && r.shop != null ==> unchanged(r.shop)
      ensures r.shop != null ==> unchanged(r.shop`tier, r.shop`subscriptionExpiresAt, r.shop`isActive)
      ensures OneReviewPerBooking(old(reviews)) ==> OneReviewPerBooking(reviews)
    {
      if !ReviewValid(r) || BookingReviewed(reviews, r.booking, -1) {
        return Http.BadRequest;
      }
      if OneReviewPerBooking(reviews) {
        PutFreeBookingKeepsUnique(reviews, |reviews|, r.(reviewer := caller));
      }
      reviews := reviews + [r.(reviewer := caller)];
      if r.shop != null {
        r.shop.UpdateRating(RatingsOf(reviews, r.shop));
      }
      code := Http.Created;
    }

    /**
     * The review `update` and `partial_update` actions on row `i` (any
     * signed-in user may call them; no owner check): 404 for a missing row,
     * then the same refusals, with the row's own booking not counted as
     * taken; otherwise row `i` is replaced, keeping its reviewer
     * (read-only), and the rating of the shop the new row names is
     * recomputed. A shop the review no longer names keeps its old rating.
     */
    method Update(i: int, r: Review) returns (code: int)
      modifies this, r.shop
      ensures code == (if !(0 <= i < |old(reviews)|) then Http.NotFound
                       else if !ReviewValid(r) || BookingReviewed(old(reviews), r.booking, i) then Http.BadRequest
                       else Http.Ok)
      ensures code == Http.Ok ==> reviews == old(reviews)[i := r.(reviewer := old(reviews)[i].reviewer)]
      ensures code != Http.Ok ==> reviews == old(reviews)
      ensures code == Http.Ok && r.shop != null ==>
        r.shop.totalRatings == |RatingsOf(reviews, r.shop)| &&
        r.shop.ratingAverage == Shops.Mean(RatingsOf(reviews, r.shop))
      ensures code != Http.Ok && r.shop != null ==> unchanged(r.shop)
      ensures r.shop != null ==> unchanged(r.shop`tier, r.shop`subscriptionExpiresAt, r.shop`isActive)
      ensures |reviews| == |old(reviews)|
      ensures OneReviewPerBooking(old(reviews)) ==> OneReviewPerBooking(reviews)
    {
      if !(0 <= i < |reviews|) {
        return Http.NotFound;
      }
      if !ReviewValid(r) || BookingReviewed(reviews, r.booking, i) {
        return Http.BadRequest;
      }
      var stored := r.(reviewer := reviews[i].reviewer);
      if OneReviewPerBooking(reviews) {
        PutFreeBookingKeepsUnique(reviews, i, stored);
      }
      reviews := reviews[i := stored];
      if r.shop != null {
        r.shop.UpdateRating(RatingsOf(reviews, r.shop));
      }
      code := Http.Ok;
    }
  }

  /**
   * Once every stored review passes its validator, any shop that some
   * review names has at least one rating and a mean within 1..5, whichever
   * row, new or replaced, names it.
   */
  lemma {:induction false} NamedShopRatingBounded(rs: seq<Review>, s: Shops.Shop, i: nat)
    requires forall k :: 0 <= k < |rs| ==> ReviewValid(rs[k])
    requires i < |rs| && rs[i].shop == s
    ensures |RatingsOf(rs, s)| >= 1
    ensures 1.0 <= Shops.Mean(RatingsOf(rs, s)) <= 5.0
  {
    var n := |rs| - 1;
    if i < n {
      assert forall k :: 0 <= k < n ==> ReviewValid(rs[..n][k]) by {
        forall k | 0 <= k < n ensures ReviewValid(rs[..n][k]) {
          assert rs[..n][k] == rs[k];
        }
      }
      assert rs[..n][i] == rs[i];
      NamedShopRatingBounded(rs[..n], s, i);
    }
    Shops.MeanWithinRatingBounds(RatingsOf(rs, s));
  }

  /** Saving a valid review leaves its shop with at least one rating and a mean within 1..5. */
  lemma SavedShopRatingBounded(rs: seq<Review>, s: Shops.Shop)
    requires forall i :: 0 <= i < |rs| ==> ReviewValid(rs[i])
    requires rs != [] && rs[|rs| - 1].shop == s
    ensures |RatingsOf(rs, s)| >= 1
    ensures 1.0 <= Shops.Mean(RatingsOf(rs, s)) <= 5.0
  {
    Shops.MeanWithinRatingBounds(RatingsOf(rs, s));
  }
}
