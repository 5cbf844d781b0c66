/**
 The sample catalog of the storefront, with prices in cents, and shopping
 sessions over it.
 */
module Catalog {
  import opened Cart
  import opened CartStore

  const Mouse := Product("sku_1", "Wireless Mouse", 1999)
  const Keyboard := Product("sku_2", "Mechanical Keyboard", 7900)
  const Hub := Product("sku_3", "USB-C Hub", 2950)
  const Headphones := Product("sku_4", "Noise-Cancel Headphones", 12999)

  /** The products the shop lists, in display order. */
  const Products: seq<Product> := [Mouse, Keyboard, Hub, Headphones]

  lemma SumOfTwo(a: Line, b: Line, f: Line -> int)
    ensures Sum([a, b], f) == f(a) + f(b)
  {
    assert [a, b][1..] == [b];
    assert [b][1..] == [];
    assert Sum([b], f) == f(b) + Sum([], f);
  }

  /** Adding the mouse twice gives one line with two units. */
  lemma MouseTwice()
    ensures AddItem(AddItem([], Mouse), Mouse) == [Line("sku_1", "Wireless Mouse", 1999, 2)]
    ensures TotalCount(AddItem(AddItem([], Mouse), Mouse)) == 2
    ensures TotalPrice(AddItem(AddItem([], Mouse), Mouse)) == 3998
  {
    AddTimesFromEmpty(Mouse, 2);
    var c := AddItem(AddItem([], Mouse), Mouse);
    assert AddTimes([], Mouse, 2) == c;
    assert c[1..] == [];
    assert Sum(c, Qty) == 2 && Sum(c, Subtotal) == 3998;
  }

  /** A session on the store: add the mouse and the hub, then press the
      decrement button on the mouse's line. The mouse stays with one unit. */
  method DecrementSession() returns (lines: seq<Line>, count: int, total: int)
    ensures lines == [NewLine(Mouse), NewLine(Hub)]
    ensures count == 2 && total == 4949
  {
    var store := new Store();
    store.AddItem(Mouse);
    store.AddItem(Hub);
    assert store.items == [NewLine(Mouse), NewLine(Hub)];
    DecrementAtOneKeepsLine(store.items, 0);
    store.SetQty(Mouse.id, store.items[0].qty - 1);
    lines := store.items;
    SumOfTwo(NewLine(Mouse), NewLine(Hub), Qty);
    SumOfTwo(NewLine(Mouse), NewLine(Hub), Subtotal);
    count := store.TotalCount();
    total := store.TotalPrice();
  }
}
