/**
 * The tools and bookings tables together, with the stock-conservation
 * invariant that booking creation and cancellation keep: for every tool,
 * its available quantity plus the quantities held by its non-cancelled
 * bookings is a constant (the ghost `stock`).
 */
module Inventory {
  import Tools
  import Bookings

  /** The quantity of tool `t` that booking `b` holds. */
  function Hold(b: Bookings.Booking, t: nat): int
  {
    if b.tool == t && b.status != Bookings.Cancelled then b.quantity else 0
  }

  /** The quantity of tool `t` held by the bookings `bs`. */
  function Held(bs: seq<Bookings.Booking>, t: nat): int
  {
    if bs == [] then 0 else Held(bs[..|bs| - 1], t) + Hold(bs[|bs| - 1], t)
  }

  /** Every booking references an existing tool and books at least one unit. */
  predicate WellFormed(bs: seq<Bookings.Booking>, toolCount: nat)
  {
    forall i :: 0 <= i < |bs| ==> bs[i].tool < toolCount && bs[i].quantity >= 1
  }

  /** Appending a booking adds exactly what it holds. */
  lemma HeldAppend(bs: seq<Bookings.Booking>, b: Bookings.Booking, t: nat)
    ensures Held(bs + [b], t) == Held(bs, t) + Hold(b, t)
  {
    assert (bs + [b])[..|bs|] == bs;
  }

  /** Replacing one booking changes the held quantity by the difference of the two holds. */
  lemma {:induction false} HeldUpdate(bs: seq<Bookings.Booking>, i: nat, b: Bookings.Booking, t: nat)
    requires i < |bs|
    ensures Held(bs[i := b], t) == Held(bs, t) - Hold(bs[i], t) + Hold(b, t)
  {
    var n := |bs| - 1;
    if i == n {
      assert bs[i := b][..n] == bs[..n];
    } else {
      HeldUpdate(bs[..n], i, b, t);
      assert bs[i := b][..n] == bs[..n][i := b];
    }
  }

  /** Booking quantities are positive, so what they hold is never negative. */
  lemma {:induction false} HeldNonNegative(bs: seq<Bookings.Booking>, t: nat)
    requires forall i :: 0 <= i < |bs| ==> bs[i].quantity >= 1
    ensures Held(bs, t) >= 0
  {
    if bs != [] {
      var n := |bs| - 1;
      assert forall i :: 0 <= i < n ==> bs[..n][i].quantity >= 1 by {
        forall i | 0 <= i < n ensures bs[..n][i].quantity >= 1 {
          assert bs[..n][i] == bs[i];
        }
      }
      HeldNonNegative(bs[..n], t);
    }
  }

  /** The held quantities of well-formed bookings are never negative. */
  lemma HeldNonNegativeWhenWellFormed(bs: seq<Bookings.Booking>, toolCount: nat)
    ensures WellFormed(bs, toolCount) ==> forall t :: Held(bs, t) >= 0
  {
    if WellFormed(bs, toolCount) {
      forall t ensures Held(bs, t) >= 0 {
        HeldNonNegative(bs, t);
      }
    }
  }

  /**
   * `in_stock` read against the conservation invariant: a tool is in stock
   * exactly when its live bookings hold less than its whole stock.
   */
  lemma InStockIffUnitsUnheld(db: Marketplace, t: nat)
    requires db.Valid() && t < |db.tools|
    ensures Tools.InStock(db.tools[t]) <==> Held(db.bookings, t) < db.stock[t]
  {
  }

  /** A change to a booking that leaves what it holds alone leaves every tool's held quantity alone. */
  lemma HeldUnchangedBySameHold(bs: seq<Bookings.Booking>, i: nat, b: Bookings.Booking)
    requires i < |bs|
    requires forall t :: Hold(b, t) == Hold(bs[i], t)
    ensures forall t :: Held(bs[i := b], t) == Held(bs, t)
  {
    forall t ensures Held(bs[i := b], t) == Held(bs, t) {
      HeldUpdate(bs, i, b, t);
    }
  }

  class Marketplace {
    var tools: seq<Tools.Tool>
    var bookings: seq<Bookings.Booking>
    /** For each tool: available quantity plus the quantity its live bookings hold. */
    ghost var stock: seq<int>

    /**
     * Stock conservation. It bounds every available quantity by the tool's
     * stock, since live bookings hold a non-negative quantity.
     */
    ghost predicate Valid()
      reads this
      ensures Valid() ==> |stock| == |tools| && forall t :: 0 <= t < |tools| ==> 0 <= tools[t].quantityAvailable <= stock[t]
    {
      HeldNonNegativeWhenWellFormed(bookings, |tools|);
      && |stock| == |tools|
      && WellFormed(bookings, |tools|)
      && (forall t :: 0 <= t < |tools| ==> tools[t].quantityAvailable >= 0)
      && (forall t :: 0 <= t < |tools| ==> tools[t].quantityAvailable + Held(bookings, t) == stock[t])
    }

    /** A marketplace with its tools and no bookings yet. */
    constructor (initial: seq<Tools.Tool>)
      requires forall t :: 0 <= t < |initial| ==> initial[t].quantityAvailable >= 0
      ensures Valid()
      ensures tools == initial && bookings == []
      ensures forall t :: 0 <= t < |initial| ==> stock[t] == initial[t].quantityAvailable
    {
      tools := initial;
      bookings := [];
      stock := seq(|initial|, t requires 0 <= t < |initial| => initial[t].quantityAvailable);
    }

    /** Adds a tool row; its whole quantity is available. */
    method AddTool(t: Tools.Tool) returns (id: nat)
      requires Valid()
      requires t.quantityAvailable >= 0
      modifies this
      ensures Valid()
      ensures id == |old(tools)|
      ensures tools == old(tools) + [t] && bookings == old(bookings)
      ensures stock == old(stock) + [t.quantityAvailable]
    {
      id := |tools|;
      HeldNoneForUnknownTool(bookings, id);
      tools := tools + [t];
      stock := stock + [t.quantityAvailable];
    }
  }

  /** A tool that no booking references has nothing held. */
  lemma {:induction false} HeldNoneForUnknownTool(bs: seq<Bookings.Booking>, t: nat)
    requires forall i :: 0 <= i < |bs| ==> bs[i].tool < t
    ensures Held(bs, t) == 0
  {
    if bs != [] {
      var n := |bs| - 1;
      assert forall i :: 0 <= i < n ==> bs[..n][i].tool < t by {
        forall i | 0 <= i < n ensures bs[..n][i].tool < t {
          assert bs[..n][i] == bs[i];
        }
      }
      HeldNoneForUnknownTool(bs[..n], t);
    }
  }
}
