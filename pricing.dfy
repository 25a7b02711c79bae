/**
 * The running total of the cart (`calculateTotalPrice`, src/TicketForm.tsx:52-59):
 * a left fold over the lines, where each line adds the cost of its tier times its
 * quantity, and a line whose type is not in the catalog adds nothing.
 */
module Pricing {
  import opened Wrappers
  import opened Types
  import opened Cart

  /**
   * The first tier of the catalog whose key is `t`, or None
   * (what `find` answers at src/TicketForm.tsx:54-56).
   */
  function FindTier(tiers: seq<TicketType>, t: string): (r: Option<TicketType>)
    ensures r.None? <==> forall k :: 0 <= k < |tiers| ==> tiers[k].typeKey != t
    ensures r.Some? ==> exists i :: 0 <= i < |tiers| && tiers[i] == r.value && FirstTier(tiers, t, i)
  {
    if tiers == [] then None
    else if tiers[0].typeKey == t then
      assert FirstTier(tiers, t, 0);
      Some(tiers[0])
    else
      var r := FindTier(tiers[1..], t);
      FirstTierPastHead(tiers, t);
      r
  }

  /** Tier `i` is the first one of the catalog with key `t`. */
  predicate FirstTier(tiers: seq<TicketType>, t: string, i: int) {
    0 <= i < |tiers| && tiers[i].typeKey == t &&
    forall k :: 0 <= k < i ==> tiers[k].typeKey != t
  }

  /** Past a head tier of another key, the first tier of the tail is the first of the catalog. */
  lemma FirstTierPastHead(tiers: seq<TicketType>, t: string)
    requires tiers != [] && tiers[0].typeKey != t
    ensures forall i :: FirstTier(tiers[1..], t, i) ==> FirstTier(tiers, t, i + 1) && tiers[i + 1] == tiers[1..][i]
  {
  }

  /** The price of one ticket of type `t`: its tier's cost, or 0 when the catalog lacks it. */
  function UnitCost(tiers: seq<TicketType>, t: string): int {
    match FindTier(tiers, t)
    case Some(tier) => tier.cost
    case None => 0
  }

  /** What one line adds to the total (the callback of `reduce`, src/TicketForm.tsx:53-58). */
  function LineCost(tiers: seq<TicketType>, item: OrderItem): int {
    match FindTier(tiers, item.ticketType)
    case Some(tier) => tier.cost * item.quantity
    case None => 0
  }

  /** `reduce` over the lines, from the front, starting from the accumulator `total`. */
  function Reduce(items: seq<OrderItem>, tiers: seq<TicketType>, total: int): int {
    if items == [] then total
    else Reduce(items[1..], tiers, total + LineCost(tiers, items[0]))
  }

  /** `calculateTotalPrice`: the fold started at 0. */
  function TotalPrice(items: seq<OrderItem>, event: BandEvent): int {
    Reduce(items, event.ticketTypes, 0)
  }

  /** The reference total: the sum over the lines of unit cost times quantity. */
  function Sum(items: seq<OrderItem>, tiers: seq<TicketType>): int {
    if items == [] then 0
    else UnitCost(tiers, items[0].ticketType) * items[0].quantity + Sum(items[1..], tiers)
  }

  /** Each line's share is its unit cost times its quantity (0 for a type missing from the catalog). */
  lemma LineCostIsUnitCostTimesQuantity(tiers: seq<TicketType>, item: OrderItem)
    ensures LineCost(tiers, item) == UnitCost(tiers, item.ticketType) * item.quantity
    ensures (forall k :: 0 <= k < |tiers| ==> tiers[k].typeKey != item.ticketType) ==> LineCost(tiers, item) == 0
  {
  }

  /** The fold from `total` ends at `total` plus the reference sum. */
  lemma {:induction false} ReduceIsSum(items: seq<OrderItem>, tiers: seq<TicketType>, total: int)
    ensures Reduce(items, tiers, total) == total + Sum(items, tiers)
  {
    if items != [] {
      LineCostIsUnitCostTimesQuantity(tiers, items[0]);
      ReduceIsSum(items[1..], tiers, total + LineCost(tiers, items[0]));
    }
  }

  /** The total is the reference sum; the empty cart totals 0. */
  lemma TotalPriceIsSum(items: seq<OrderItem>, event: BandEvent)
    ensures TotalPrice(items, event) == Sum(items, event.ticketTypes)
    ensures items == [] ==> TotalPrice(items, event) == 0
  {
    ReduceIsSum(items, event.ticketTypes, 0);
  }

  /** The sum of two carts put end to end is the sum of their sums. */
  lemma {:induction false} SumAppend(a: seq<OrderItem>, b: seq<OrderItem>, tiers: seq<TicketType>)
    ensures Sum(a + b, tiers) == Sum(a, tiers) + Sum(b, tiers)
  {
    if a != [] {
      assert (a + b)[1..] == a[1..] + b;
      SumAppend(a[1..], b, tiers);
    } else {
      assert a + b == b;
    }
  }

  /** Replacing line `i` changes the sum by the difference of the two lines' shares. */
  lemma {:induction false} SumUpdate(items: seq<OrderItem>, tiers: seq<TicketType>, i: int, x: OrderItem)
    requires 0 <= i < |items|
    ensures Sum(items[i := x], tiers) ==
      Sum(items, tiers) - UnitCost(tiers, items[i].ticketType) * items[i].quantity
                        + UnitCost(tiers, x.ticketType) * x.quantity
  {
    if i > 0 {
      assert items[i := x][1..] == items[1..][i - 1 := x];
      SumUpdate(items[1..], tiers, i - 1, x);
    }
  }

  /** Splicing out line `i` lowers the sum by that line's share. */
  lemma {:induction false} SumSplice(items: seq<OrderItem>, tiers: seq<TicketType>, i: int)
    requires 0 <= i < |items|
    ensures Sum(items[..i] + items[i + 1..], tiers) ==
      Sum(items, tiers) - UnitCost(tiers, items[i].ticketType) * items[i].quantity
  {
    if i == 0 {
      assert items[..0] + items[1..] == items[1..];
    } else {
      assert (items[..i] + items[i + 1..])[1..] == items[1..][..i - 1] + items[1..][i..];
      SumSplice(items[1..], tiers, i - 1);
    }
  }

  /** Whatever the cart, adding `t` raises the total by one unit cost of `t`. */
  lemma TotalAfterAdd(items: seq<OrderItem>, event: BandEvent, t: string)
    ensures TotalPrice(Added(items, t), event) == TotalPrice(items, event) + UnitCost(event.ticketTypes, t)
  {
    var tiers := event.ticketTypes;
    TotalPriceIsSum(items, event);
    TotalPriceIsSum(Added(items, t), event);
    var i := IndexOf(items, t);
    if i >= 0 {
      var q := items[i].quantity;
      SumUpdate(items, tiers, i, items[i].(quantity := q + 1));
      assert UnitCost(tiers, t) * (q + 1) == UnitCost(tiers, t) * q + UnitCost(tiers, t);
    } else {
      SumAppend(items, [OrderItem(t, 1)], tiers);
    }
  }

  /** On a well-formed cart, removing `t` lowers the total by one unit cost when `t` has a line. */
  lemma TotalAfterRemove(items: seq<OrderItem>, event: BandEvent, t: string)
    requires WellFormed(items)
    ensures TotalPrice(Removed(items, t), event) ==
      TotalPrice(items, event) - (if IndexOf(items, t) >= 0 then UnitCost(event.ticketTypes, t) else 0)
  {
    var i := IndexOf(items, t);
    if i >= 0 {
      TotalAfterRemoveLine(items, event, t, i);
    }
  }

  /** The step of TotalAfterRemove once the line `i` of `t` is known to hold a ticket. */
  lemma TotalAfterRemoveLine(items: seq<OrderItem>, event: BandEvent, t: string, i: int)
    requires i == IndexOf(items, t) && i >= 0 && items[i].quantity >= 1
    ensures TotalPrice(Removed(items, t), event) == TotalPrice(items, event) - UnitCost(event.ticketTypes, t)
  {
    var tiers := event.ticketTypes;
    var r := Removed(items, t);
    TotalPriceIsSum(items, event);
    TotalPriceIsSum(r, event);
    var q := items[i].quantity;
    var u := UnitCost(tiers, t);
    if q == 1 {
      SumSplice(items, tiers, i);
    } else {
      SumUpdate(items, tiers, i, items[i].(quantity := q - 1));
      assert u * (q - 1) == u * q - u;
    }
  }

  /** With no negative tier cost, the reference sum of a well-formed cart is never below 0. */
  lemma {:induction false} SumNonNegative(items: seq<OrderItem>, tiers: seq<TicketType>)
    requires WellFormed(items)
    requires forall k :: 0 <= k < |tiers| ==> tiers[k].cost >= 0
    ensures Sum(items, tiers) >= 0
  {
    if items != [] {
      assert WellFormed(items[1..]);
      SumNonNegative(items[1..], tiers);
    }
  }

  /** With no negative tier cost, a well-formed cart never totals below 0. */
  lemma TotalNonNegative(items: seq<OrderItem>, event: BandEvent)
    requires WellFormed(items)
    requires forall k :: 0 <= k < |event.ticketTypes| ==> event.ticketTypes[k].cost >= 0
    ensures TotalPrice(items, event) >= 0
  {
    TotalPriceIsSum(items, event);
    SumNonNegative(items, event.ticketTypes);
  }

  /** Tiers vip at 5000 and ga at 2000: two vip and one ga total 12000. */
  lemma TotalScenario(event: BandEvent)
    requires event.ticketTypes == [TicketType("vip", "VIP", "", 5000), TicketType("ga", "General", "", 2000)]
    ensures TotalPrice([OrderItem("vip", 2), OrderItem("ga", 1)], event) == 12000
  {
    var items := [OrderItem("vip", 2), OrderItem("ga", 1)];
    var tiers := event.ticketTypes;
    TotalPriceIsSum(items, event);
    assert "ga"[0] != "vip"[0];
    assert tiers[1..] == [tiers[1]];
    assert UnitCost(tiers, "vip") == 5000;
    assert UnitCost(tiers, "ga") == 2000;
    assert items[1..] == [items[1]] && items[1..][1..] == [];
    assert Sum(items[1..], tiers) == 2000;
  }
}
