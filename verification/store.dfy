/**
 The cart store as the application holds it: one mutable cell of cart lines,
 created empty, that the three mutators replace by a new sequence computed
 from the old one, and the two totals recomputed from the current lines.
 */
module CartStore {
  import opened Cart

  class Store {
    /** The current cart lines, in insertion order. */
    var items: seq<Line>

    /** The store invariant: ids are unique and every quantity is at least one. */
    ghost predicate Valid()
      reads this
    {
      WellFormed(items)
    }

    /** The cart starts empty. */
    constructor ()
      ensures Valid() && items == []
    {
      items := [];
    }

    /** addItem(product): replace the lines by the result of adding `p`. */
    method AddItem(p: Product)
      requires Valid()
      modifies this
      ensures Valid()
      ensures items == Cart.AddItem(old(items), p)
    {
      AddItemWellFormed(items, p);
      items := Cart.AddItem(items, p);
    }

    /** removeItem(id): replace the lines by those without `id`. */
    method RemoveItem(id: string)
      requires Valid()
      modifies this
      ensures Valid()
      ensures items == Cart.RemoveItem(old(items), id)
    {
      RemoveItemWellFormed(items, id);
      items := Cart.RemoveItem(items, id);
    }

    /** setQty(id, q): replace the lines by the result of setting the
        quantity of `id` to max(1, q). */
    method SetQty(id: string, q: int)
      requires Valid()
      modifies this
      ensures Valid()
      ensures items == Cart.SetQty(old(items), id, q)
    {
      SetQtyWellFormed(items, id, q);
      items := Cart.SetQty(items, id, q);
    }

    /** totalCount, recomputed from the current lines: the number of units in
        the cart, zero exactly when the cart is empty. */
    function TotalCount(): (n: int)
      reads this
      requires Valid()
      ensures n == Sum(items, Qty)
      ensures n >= |items|
      ensures n == 0 <==> items == []
    {
      TotalCountAtLeastLines(items);
      Cart.TotalCount(items)
    }

    /** totalPrice, recomputed from the current lines: never negative while
        every price is non-negative. */
    function TotalPrice(): (t: int)
      reads this
      requires Valid()
      ensures t == Sum(items, Subtotal)
      ensures (forall j :: 0 <= j < |items| ==> items[j].price >= 0) ==> t >= 0
    {
      if forall j :: 0 <= j < |items| ==> items[j].price >= 0 then
        TotalPriceNonNegative(items);
        Cart.TotalPrice(items)
      else
        Cart.TotalPrice(items)
    }
  }
}
