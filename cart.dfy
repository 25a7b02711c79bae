/**
 * The ticket cart of TicketForm (src/TicketForm.tsx:24-27, 42, 61-90): an ordered list
 * of lines, one per ticket type, changed only by "add or update" and "remove".
 *
 * `Added` and `Removed` are the specification of the two operations on values; the
 * class `CartStore` holds the list as state and its methods do the work step by step,
 * as the component does: find the index of the line, then bump, append or splice.
 */
module Cart {

  /** One cart line: a ticket type and how many of it are selected. */
  datatype OrderItem = OrderItem(ticketType: string, quantity: int)

  /**
   * The index of the first line whose type is `t`, or -1 when there is none
   * (what `findIndex` answers at src/TicketForm.tsx:62-64 and :76-78).
   */
  function IndexOf(items: seq<OrderItem>, t: string): (r: int)
    ensures -1 <= r < |items|
    ensures 0 <= r ==> items[r].ticketType == t
    ensures forall k :: 0 <= k < |items| && (r < 0 || k < r) ==> items[k].ticketType != t
  {
    if items == [] then -1
    else if items[0].ticketType == t then 0
    else
      var j := IndexOf(items[1..], t);
      if j < 0 then -1 else j + 1
  }

  /** The cart invariants: at most one line per ticket type, and every quantity at least 1. */
  predicate WellFormed(items: seq<OrderItem>) {
    (forall i, j :: 0 <= i < j < |items| ==> items[i].ticketType != items[j].ticketType) &&
    (forall i :: 0 <= i < |items| ==> items[i].quantity >= 1)
  }

  /** The selected quantity of type `t`: that of its first line, or 0 when it has none. */
  function QuantityOf(items: seq<OrderItem>, t: string): int {
    var i := IndexOf(items, t);
    if i < 0 then 0 else items[i].quantity
  }

  /** The cart after `addOrUpdateTicket(t)`. */
  function Added(items: seq<OrderItem>, t: string): seq<OrderItem> {
    var i := IndexOf(items, t);
    if i >= 0 then items[i := items[i].(quantity := items[i].quantity + 1)]
    else items + [OrderItem(t, 1)]
  }

  /** The cart after `removeTicket(t)`. */
  function Removed(items: seq<OrderItem>, t: string): seq<OrderItem> {
    var i := IndexOf(items, t);
    if i < 0 then items
    else if items[i].quantity <= 1 then items[..i] + items[i + 1..]
    else items[i := items[i].(quantity := items[i].quantity - 1)]
  }

  /** The loop behind `findIndex`: scan the lines from the front. */
  method FindIndex(items: seq<OrderItem>, t: string) returns (i: int)
    ensures i == IndexOf(items, t)
  {
    i := 0;
    while i < |items| && items[i].ticketType != t
      invariant 0 <= i <= |items|
      invariant forall k :: 0 <= k < i ==> items[k].ticketType != t
    {
      i := i + 1;
    }
    if i == |items| {
      i := -1;
    }
  }

  /** The `orderItems` state of one form, updated step by step by the two handlers. */
  class CartStore {
    var orderItems: seq<OrderItem>

    predicate Valid()
      reads this
    {
      WellFormed(orderItems)
    }

    /** A form starts with an empty cart (src/TicketForm.tsx:42). */
    constructor ()
      ensures orderItems == [] && Valid()
    {
      orderItems := [];
    }

    /** `addOrUpdateTicket` (src/TicketForm.tsx:61-73). */
    method AddOrUpdateTicket(t: string)
      modifies this
      ensures orderItems == Added(old(orderItems), t)
      ensures old(Valid()) ==> Valid()
    {
      ghost var before := orderItems;
      var i := FindIndex(orderItems, t);
      if i >= 0 {
        orderItems := orderItems[i := orderItems[i].(quantity := orderItems[i].quantity + 1)];
      } else {
        orderItems := orderItems + [OrderItem(t, 1)];
      }
      if WellFormed(before) {
        AddPreservesWellFormed(before, t);
      }
    }

    /** `removeTicket` (src/TicketForm.tsx:75-90). */
    method RemoveTicket(t: string)
      modifies this
      ensures orderItems == Removed(old(orderItems), t)
      ensures old(Valid()) ==> Valid()
    {
      ghost var before := orderItems;
      var i := FindIndex(orderItems, t);
      var updated := orderItems;
      if i == -1 {
        return;
      } else if updated[i].quantity <= 1 {
        updated := updated[..i] + updated[i + 1..];
        orderItems := updated;
      } else {
        updated := updated[i := updated[i].(quantity := updated[i].quantity - 1)];
        orderItems := updated;
      }
      if WellFormed(before) {
        RemovePreservesWellFormed(before, t);
      }
    }
  }

  /** Adding a type that has a line bumps only that line, by one; nothing else moves. */
  lemma AddExisting(items: seq<OrderItem>, t: string, i: int)
    requires 0 <= i < |items| && items[i].ticketType == t
    requires forall k :: 0 <= k < i ==> items[k].ticketType != t
    ensures |Added(items, t)| == |items|
    ensures Added(items, t)[i] == OrderItem(t, items[i].quantity + 1)
    ensures forall k :: 0 <= k < |items| && k != i ==> Added(items, t)[k] == items[k]
  {
  }

  /** Adding a type with no line appends a line of quantity 1 after the existing ones. */
  lemma AddNew(items: seq<OrderItem>, t: string)
    requires forall k :: 0 <= k < |items| ==> items[k].ticketType != t
    ensures Added(items, t) == items + [OrderItem(t, 1)]
  {
  }

  /** Removing a type with no line leaves the cart as it was. */
  lemma RemoveAbsent(items: seq<OrderItem>, t: string)
    requires forall k :: 0 <= k < |items| ==> items[k].ticketType != t
    ensures Removed(items, t) == items
  {
  }

  /**
   * Removing a type whose line holds at most one ticket splices that line out and keeps
   * the other lines in their order; a larger quantity goes down by exactly one.
   */
  lemma RemoveExisting(items: seq<OrderItem>, t: string, i: int)
    requires 0 <= i < |items| && items[i].ticketType == t
    requires forall k :: 0 <= k < i ==> items[k].ticketType != t
    ensures items[i].quantity <= 1 ==>
      |Removed(items, t)| == |items| - 1 &&
      (forall k :: 0 <= k < i ==> Removed(items, t)[k] == items[k]) &&
      (forall k :: i < k < |items| ==> Removed(items, t)[k - 1] == items[k])
    ensures items[i].quantity > 1 ==>
      |Removed(items, t)| == |items| &&
      Removed(items, t)[i] == OrderItem(t, items[i].quantity - 1) &&
      (forall k :: 0 <= k < |items| && k != i ==> Removed(items, t)[k] == items[k])
  {
  }

  /** Adding keeps the cart invariants. */
  lemma AddPreservesWellFormed(items: seq<OrderItem>, t: string)
    requires WellFormed(items)
    ensures WellFormed(Added(items, t))
  {
  }

  /** Removing keeps the cart invariants. */
  lemma RemovePreservesWellFormed(items: seq<OrderItem>, t: string)
    requires WellFormed(items)
    ensures WellFormed(Removed(items, t))
  {
  }

  /** On a well-formed cart, removing a type right after adding it gives back the same cart. */
  lemma RemoveAfterAdd(items: seq<OrderItem>, t: string)
    requires WellFormed(items)
    ensures Removed(Added(items, t), t) == items
  {
    var i := IndexOf(items, t);
    var a := Added(items, t);
    if i >= 0 {
      assert forall k :: 0 <= k < |a| ==> a[k].ticketType == items[k].ticketType;
      assert IndexOf(a, t) == i;
    } else {
      IndexOfAppended(items, t);
      assert a[..|items|] == items;
    }
  }

  /** Adding `t` raises the quantity of `t` by one and no other quantity changes. */
  lemma QuantityAfterAdd(items: seq<OrderItem>, t: string, u: string)
    ensures QuantityOf(Added(items, t), u) == QuantityOf(items, u) + (if u == t then 1 else 0)
  {
    var i := IndexOf(items, t);
    var a := Added(items, t);
    if i >= 0 {
      assert forall k :: 0 <= k < |a| ==> a[k].ticketType == items[k].ticketType;
      assert IndexOf(a, u) == IndexOf(items, u);
    } else if u != t {
      assert forall k :: 0 <= k < |items| ==> a[k] == items[k];
      assert IndexOf(a, u) == IndexOf(items, u);
    } else {
      IndexOfAppended(items, t);
    }
  }

  /** A line appended for a type with no line is the first line of that type. */
  lemma IndexOfAppended(items: seq<OrderItem>, t: string)
    requires IndexOf(items, t) < 0
    ensures IndexOf(Added(items, t), t) == |items|
  {
    var a := Added(items, t);
    assert a[|items|].ticketType == t;
    assert forall k :: 0 <= k < |items| ==> a[k] == items[k];
  }

  /**
   * On a well-formed cart, removing `t` lowers the quantity of `t` by one when it has
   * a line (to 0 when that line goes), and no other quantity changes.
   */
  lemma QuantityAfterRemove(items: seq<OrderItem>, t: string, u: string)
    requires WellFormed(items)
    ensures QuantityOf(Removed(items, t), u) ==
      if u == t && QuantityOf(items, t) > 0 then QuantityOf(items, t) - 1 else QuantityOf(items, u)
  {
    var i := IndexOf(items, t);
    var r := Removed(items, t);
    if i >= 0 && items[i].quantity <= 1 {
      assert forall k :: 0 <= k < i ==> r[k] == items[k];
      assert forall k :: i <= k < |r| ==> r[k] == items[k + 1];
      if u == t {
        assert IndexOf(r, u) == -1;
      } else {
        var j := IndexOf(items, u);
        var jr := IndexOf(r, u);
        if j < 0 {
          assert jr == -1;
        } else {
          assert j != i;
          assert j < i ==> jr == j;
          if j > i {
            assert r[j - 1] == items[j];
          }
        }
      }
    } else if i >= 0 {
      assert forall k :: 0 <= k < |r| ==> r[k].ticketType == items[k].ticketType;
      assert IndexOf(r, u) == IndexOf(items, u);
    }
  }

  /** In a well-formed cart no quantity is negative, and a type has a line iff its quantity is positive. */
  lemma QuantityNonNegative(items: seq<OrderItem>, t: string)
    requires WellFormed(items)
    ensures QuantityOf(items, t) >= 0
    ensures QuantityOf(items, t) > 0 <==> exists k :: 0 <= k < |items| && items[k].ticketType == t
  {
  }

  /** Two adds of one type make a single line of quantity 2; one remove from quantity 1 empties the cart. */
  lemma AddTwiceThenRemoveScenario()
    ensures Added(Added([], "vip"), "vip") == [OrderItem("vip", 2)]
    ensures Removed([OrderItem("vip", 1)], "vip") == []
  {
  }
}
