/**
 The cart lines of the storefront and the copy-on-write transformations the
 cart store applies to them: adding a product, removing a line, setting a
 line's quantity, and the two totals derived from the lines.

 Every operation here is a function from the old line sequence to the new
 one, as the state updaters of the store are. Prices are integers (cents),
 so that the price total is exact.
 */
module Cart {

  /** A catalog product: identifier, display name and unit price in cents. */
  datatype Product = Product(id: string, name: string, price: int)

  /** A cart line: a copy of the product's fields taken when it was added,
      and the quantity of that product in the cart. */
  datatype Line = Line(id: string, name: string, price: int, qty: int)

  /** The line that adding `p` to a cart without it appends. */
  function NewLine(p: Product): Line {
    Line(p.id, p.name, p.price, 1)
  }

  /** Some line of `s` carries `id`. */
  predicate HasId(s: seq<Line>, id: string) {
    exists j :: 0 <= j < |s| && s[j].id == id
  }

  /** No two lines of `s` share an id. */
  predicate UniqueIds(s: seq<Line>) {
    forall i, j :: 0 <= i < j < |s| ==> s[i].id != s[j].id
  }

  /** Every line of `s` has a quantity of at least one. */
  predicate AllPositive(s: seq<Line>) {
    forall j :: 0 <= j < |s| ==> s[j].qty >= 1
  }

  /** The store invariant: ids are unique and every quantity is at least one. */
  predicate WellFormed(s: seq<Line>) {
    UniqueIds(s) && AllPositive(s)
  }

  /** Lines `s` and `t` describe the same product: only the quantity may differ. */
  predicate SameProduct(s: Line, t: Line) {
    s.id == t.id && s.name == t.name && s.price == t.price
  }

  /* ------------------------------ findIndex ------------------------------ */

  /** The index of the first line with `id`, or -1 when there is none. */
  function FindIndex(s: seq<Line>, id: string): (r: int)
    ensures -1 <= r < |s|
    ensures r >= 0 ==> s[r].id == id && forall k :: 0 <= k < r ==> s[k].id != id
    ensures r < 0 <==> !HasId(s, id)
  {
    if |s| == 0 then -1
    else if s[0].id == id then 0
    else
      var k := FindIndex(s[1..], id);
      if k < 0 then -1 else k + 1
  }

  /** Under unique ids, the line carrying `id` is the one FindIndex finds. */
  lemma FindIndexUnique(s: seq<Line>, id: string, i: int)
    requires UniqueIds(s) && 0 <= i < |s| && s[i].id == id
    ensures FindIndex(s, id) == i
  {
  }

  /* -------------------------------- addItem ------------------------------- */

  /** Adding `p`: the first line with its id gains one unit; when no line has
      its id, a new line with quantity one is appended at the end. */
  function AddItem(s: seq<Line>, p: Product): (r: seq<Line>)
    ensures |r| == if HasId(s, p.id) then |s| else |s| + 1
    ensures forall j :: 0 <= j < |s| ==> SameProduct(r[j], s[j])
    ensures forall j :: 0 <= j < |s| ==>
              r[j].qty == if j == FindIndex(s, p.id) then s[j].qty + 1 else s[j].qty
    ensures !HasId(s, p.id) ==> r[|s|] == NewLine(p)
    ensures HasId(r, p.id)
  {
    var idx := FindIndex(s, p.id);
    if idx >= 0 then
      s[idx := s[idx].(qty := s[idx].qty + 1)]
    else
      s + [NewLine(p)]
  }

  /** In a cart with unique ids, adding a product already present replaces
      exactly that product's line by one with one more unit. */
  lemma AddItemPresent(s: seq<Line>, p: Product, i: int)
    requires UniqueIds(s) && 0 <= i < |s| && s[i].id == p.id
    ensures AddItem(s, p) == s[i := s[i].(qty := s[i].qty + 1)]
  {
  }

  /** Adding keeps the store invariant. */
  lemma AddItemWellFormed(s: seq<Line>, p: Product)
    requires WellFormed(s)
    ensures WellFormed(AddItem(s, p))
  {
  }

  /* ------------------------------ removeItem ------------------------------ */

  /** Removing `id`: every line with that id is filtered out. */
  function RemoveItem(s: seq<Line>, id: string): (r: seq<Line>)
    ensures |r| <= |s|
    ensures !HasId(r, id)
    ensures forall l :: l in r <==> l in s && l.id != id
    ensures !HasId(s, id) ==> r == s
  {
    if |s| == 0 then []
    else if s[0].id == id then RemoveItem(s[1..], id)
    else [s[0]] + RemoveItem(s[1..], id)
  }

  /** Filtering distributes over concatenation: the surviving lines keep
      their relative order. */
  lemma {:induction false} RemoveItemConcat(a: seq<Line>, b: seq<Line>, id: string)
    ensures RemoveItem(a + b, id) == RemoveItem(a, id) + RemoveItem(b, id)
  {
    if |a| > 0 {
      assert (a + b)[1..] == a[1..] + b;
      RemoveItemConcat(a[1..], b, id);
    } else {
      assert a + b == b;
    }
  }

  /** In a cart with unique ids, removing a present id takes out exactly that
      line and keeps the others in order. */
  lemma RemoveItemPresent(s: seq<Line>, id: string, i: int)
    requires UniqueIds(s) && 0 <= i < |s| && s[i].id == id
    ensures RemoveItem(s, id) == s[..i] + s[i + 1..]
  {
    assert s == s[..i] + ([s[i]] + s[i + 1..]);
    RemoveItemConcat(s[..i], [s[i]] + s[i + 1..], id);
    RemoveItemConcat([s[i]], s[i + 1..], id);
    assert !HasId(s[..i], id) by {
      forall k | 0 <= k < i ensures s[..i][k].id != id {
        assert s[k].id != s[i].id;
      }
    }
    assert !HasId(s[i + 1..], id) by {
      forall k | i < k < |s| ensures s[k].id != id {
        assert s[k].id != s[i].id;
      }
    }
    assert RemoveItem([s[i]], id) == [];
  }

  /** The tail of a well-formed cart is well formed. */
  lemma WellFormedTail(s: seq<Line>)
    requires WellFormed(s) && |s| > 0
    ensures WellFormed(s[1..])
  {
  }

  /** Putting in front of a well-formed `r` a line with positive quantity
      whose id no line of `r` has gives a well-formed cart. */
  lemma WellFormedCons(x: Line, r: seq<Line>)
    requires WellFormed(r) && x.qty >= 1 && !HasId(r, x.id)
    ensures WellFormed([x] + r)
  {
  }

  /** Removing keeps the store invariant. */
  lemma {:induction false} RemoveItemWellFormed(s: seq<Line>, id: string)
    requires WellFormed(s)
    ensures WellFormed(RemoveItem(s, id))
  {
    if |s| > 0 {
      var tail := s[1..];
      WellFormedTail(s);
      RemoveItemWellFormed(tail, id);
      var rt := RemoveItem(tail, id);
      if s[0].id != id {
        forall k | 0 <= k < |rt| ensures rt[k].id != s[0].id {
          assert rt[k] in tail;
          var m :| 0 <= m < |tail| && tail[m] == rt[k];
          assert s[m + 1] == rt[k];
        }
        WellFormedCons(s[0], rt);
      }
    }
  }

  /* -------------------------------- setQty -------------------------------- */

  /** Math.max(1, q): the quantity a line is set to. */
  function AtLeastOne(q: int): (n: int)
    ensures n >= 1 && n >= q
    ensures n == q || n == 1
  {
    if q > 1 then q else 1
  }

  /** The map step of setQty: every line with `id` gets quantity `n`. */
  function WithQty(s: seq<Line>, id: string, n: int): (r: seq<Line>)
    ensures |r| == |s|
    ensures forall j :: 0 <= j < |s| ==> r[j] == if s[j].id == id then s[j].(qty := n) else s[j]
  {
    if |s| == 0 then []
    else [if s[0].id == id then s[0].(qty := n) else s[0]] + WithQty(s[1..], id, n)
  }

  /** The filter step of setQty: lines whose quantity is not positive are dropped. */
  function DropNonPositive(s: seq<Line>): (r: seq<Line>)
    ensures |r| <= |s|
    ensures forall l :: l in r <==> l in s && l.qty > 0
    ensures AllPositive(s) ==> r == s
  {
    if |s| == 0 then []
    else if s[0].qty > 0 then [s[0]] + DropNonPositive(s[1..])
    else DropNonPositive(s[1..])
  }

  /** Setting the quantity of `id` to `q`: the line gets max(1, q), then
      lines with non-positive quantity are filtered out. Because of the
      clamp, the line with `id` itself is never removed. */
  function SetQty(s: seq<Line>, id: string, q: int): (r: seq<Line>)
    ensures forall l :: l in r ==> l.qty >= 1
    ensures HasId(s, id) ==> HasId(r, id)
    ensures AllPositive(s) ==> |r| == |s|
    ensures AllPositive(s) ==>
              forall j :: 0 <= j < |s| ==>
                r[j] == if s[j].id == id then s[j].(qty := AtLeastOne(q)) else s[j]
  {
    var m := WithQty(s, id, AtLeastOne(q));
    assert AllPositive(s) ==> AllPositive(m) by {
      if AllPositive(s) {
        forall j | 0 <= j < |m| ensures m[j].qty >= 1 {
          assert m[j].qty == s[j].qty || m[j].qty == AtLeastOne(q);
        }
      }
    }
    assert HasId(s, id) ==> HasId(DropNonPositive(m), id) by {
      if HasId(s, id) {
        var j :| 0 <= j < |s| && s[j].id == id;
        assert m[j] in DropNonPositive(m);
      }
    }
    assert forall l :: l in DropNonPositive(m) ==> l.qty >= 1;
    DropNonPositive(m)
  }

  /** setQty on an id not in a well-formed cart leaves it unchanged. */
  lemma SetQtyAbsent(s: seq<Line>, id: string, q: int)
    requires AllPositive(s) && !HasId(s, id)
    ensures SetQty(s, id, q) == s
  {
  }

  /** Setting a quantity keeps the store invariant. */
  lemma SetQtyWellFormed(s: seq<Line>, id: string, q: int)
    requires WellFormed(s)
    ensures WellFormed(SetQty(s, id, q))
  {
  }

  /** The decrement button on a line with quantity one does not remove the
      line: the cart is left exactly as it was. */
  lemma DecrementAtOneKeepsLine(s: seq<Line>, i: int)
    requires WellFormed(s) && 0 <= i < |s| && s[i].qty == 1
    ensures SetQty(s, s[i].id, s[i].qty - 1) == s
  {
  }

  /* -------------------------------- totals -------------------------------- */

  /** The quantity of a line: what totalCount adds up. */
  function Qty(l: Line): int { l.qty }

  /** The price of a line times its quantity: what totalPrice adds up. */
  function Subtotal(l: Line): int { l.price * l.qty }

  /** Array reduce: a left fold of `f` over `s` from accumulator `acc`. */
  function FoldLeft(s: seq<Line>, f: Line -> int, acc: int): int {
    if |s| == 0 then acc else FoldLeft(s[1..], f, acc + f(s[0]))
  }

  /** The sum of `f` over the lines of `s`: the reference the folds are measured against. */
  function Sum(s: seq<Line>, f: Line -> int): int {
    if |s| == 0 then 0 else f(s[0]) + Sum(s[1..], f)
  }

  /** A left fold from `acc` is `acc` plus the sum. */
  lemma {:induction false} FoldLeftIsSum(s: seq<Line>, f: Line -> int, acc: int)
    ensures FoldLeft(s, f, acc) == acc + Sum(s, f)
  {
    if |s| > 0 {
      FoldLeftIsSum(s[1..], f, acc + f(s[0]));
    }
  }

  lemma {:induction false} SumConcat(a: seq<Line>, b: seq<Line>, f: Line -> int)
    ensures Sum(a + b, f) == Sum(a, f) + Sum(b, f)
  {
    if |a| > 0 {
      assert (a + b)[1..] == a[1..] + b;
      SumConcat(a[1..], b, f);
    } else {
      assert a + b == b;
    }
  }

  lemma {:induction false} SumUpdate(s: seq<Line>, i: int, x: Line, f: Line -> int)
    requires 0 <= i < |s|
    ensures Sum(s[i := x], f) == Sum(s, f) - f(s[i]) + f(x)
  {
    if i > 0 {
      assert s[i := x][1..] == s[1..][i - 1 := x];
      SumUpdate(s[1..], i - 1, x, f);
    } else {
      assert s[i := x][1..] == s[1..];
    }
  }

  /** totalCount: the reduce of quantities from 0, which is their sum. */
  function TotalCount(s: seq<Line>): (n: int)
    ensures n == Sum(s, Qty)
  {
    FoldLeftIsSum(s, Qty, 0);
    FoldLeft(s, Qty, 0)
  }

  /** totalPrice: the reduce of price times quantity from 0, which is their sum. */
  function TotalPrice(s: seq<Line>): (t: int)
    ensures t == Sum(s, Subtotal)
  {
    FoldLeftIsSum(s, Subtotal, 0);
    FoldLeft(s, Subtotal, 0)
  }

  /** Both totals of the empty cart are zero. */
  lemma EmptyTotals()
    ensures TotalCount([]) == 0 && TotalPrice([]) == 0
  {
  }

  /** A well-formed cart counts at least one unit per line, so its count is
      zero exactly when it is empty. */
  lemma {:induction false} TotalCountAtLeastLines(s: seq<Line>)
    requires AllPositive(s)
    ensures TotalCount(s) >= |s|
    ensures TotalCount(s) == 0 <==> s == []
  {
    if |s| > 0 {
      assert AllPositive(s[1..]) by {
        forall j | 0 <= j < |s| - 1 ensures s[1..][j].qty >= 1 {
          assert s[1..][j] == s[j + 1];
        }
      }
      TotalCountAtLeastLines(s[1..]);
    }
  }

  /** With non-negative prices and positive quantities the price total is
      non-negative. */
  lemma {:induction false} TotalPriceNonNegative(s: seq<Line>)
    requires AllPositive(s) && forall j :: 0 <= j < |s| ==> s[j].price >= 0
    ensures TotalPrice(s) >= 0
  {
    if |s| > 0 {
      assert AllPositive(s[1..]) by {
        forall j | 0 <= j < |s| - 1 ensures s[1..][j].qty >= 1 {
          assert s[1..][j] == s[j + 1];
        }
      }
      TotalPriceNonNegative(s[1..]);
      assert s[0].price * s[0].qty >= 0;
    }
  }

  /** How a sum over the lines changes under addItem: the first line with the
      product's id is replaced by its bumped copy, or the new line is added. */
  lemma {:induction false} SumAddItem(s: seq<Line>, p: Product, f: Line -> int)
    ensures var idx := FindIndex(s, p.id);
            Sum(AddItem(s, p), f) ==
            if idx >= 0 then Sum(s, f) - f(s[idx]) + f(s[idx].(qty := s[idx].qty + 1))
            else Sum(s, f) + f(NewLine(p))
  {
    var idx := FindIndex(s, p.id);
    if idx >= 0 {
      SumUpdate(s, idx, s[idx].(qty := s[idx].qty + 1), f);
    } else {
      SumConcat(s, [NewLine(p)], f);
      assert [NewLine(p)][1..] == [];
    }
  }

  /** Every addItem adds exactly one unit to the count. */
  lemma AddItemCount(s: seq<Line>, p: Product)
    ensures TotalCount(AddItem(s, p)) == TotalCount(s) + 1
  {
    SumAddItem(s, p, Qty);
  }

  lemma SumSplit(s: seq<Line>, i: int, f: Line -> int)
    requires 0 <= i < |s|
    ensures Sum(s, f) == Sum(s[..i], f) + f(s[i]) + Sum(s[i + 1..], f)
  {
    assert s == s[..i] + ([s[i]] + s[i + 1..]);
    SumConcat(s[..i], [s[i]] + s[i + 1..], f);
    assert ([s[i]] + s[i + 1..])[1..] == s[i + 1..];
  }

  /** How a sum over the lines changes when a present id is removed from a
      cart with unique ids: that line's value drops out. */
  lemma SumRemoveItem(s: seq<Line>, id: string, i: int, f: Line -> int)
    requires UniqueIds(s) && 0 <= i < |s| && s[i].id == id
    ensures Sum(RemoveItem(s, id), f) == Sum(s, f) - f(s[i])
  {
    RemoveItemPresent(s, id, i);
    SumConcat(s[..i], s[i + 1..], f);
    SumSplit(s, i, f);
  }

  /** Removing a present id from a cart with unique ids drops the count by
      that line's quantity and the price total by its subtotal. */
  lemma RemoveItemTotals(s: seq<Line>, id: string, i: int)
    requires UniqueIds(s) && 0 <= i < |s| && s[i].id == id
    ensures TotalCount(RemoveItem(s, id)) == TotalCount(s) - s[i].qty
    ensures TotalPrice(RemoveItem(s, id)) == TotalPrice(s) - s[i].price * s[i].qty
  {
    SumRemoveItem(s, id, i, Qty);
    SumRemoveItem(s, id, i, Subtotal);
  }

  /** In a well-formed cart, setting the quantity of a present id replaces
      exactly that line by one with quantity max(1, q). */
  lemma SetQtyPresent(s: seq<Line>, id: string, q: int, i: int)
    requires WellFormed(s) && 0 <= i < |s| && s[i].id == id
    ensures SetQty(s, id, q) == s[i := s[i].(qty := AtLeastOne(q))]
  {
  }

  lemma MulDiff(a: int, b: int, c: int)
    ensures a * b - a * c == a * (b - c)
  {
  }

  /** Setting the quantity of a present line in a well-formed cart changes the
      count by the difference between max(1, q) and its old quantity, and the
      price total by the line's price times that difference. */
  lemma SetQtyTotals(s: seq<Line>, id: string, q: int, i: int)
    requires WellFormed(s) && 0 <= i < |s| && s[i].id == id
    ensures TotalCount(SetQty(s, id, q)) == TotalCount(s) - s[i].qty + AtLeastOne(q)
    ensures TotalPrice(SetQty(s, id, q)) ==
            TotalPrice(s) + s[i].price * (AtLeastOne(q) - s[i].qty)
  {
    var x := s[i].(qty := AtLeastOne(q));
    SetQtyPresent(s, id, q, i);
    SumUpdate(s, i, x, Qty);
    SumUpdate(s, i, x, Subtotal);
    MulDiff(s[i].price, AtLeastOne(q), s[i].qty);
  }

  /* ---------------------------- repeated adds ----------------------------- */

  /** `n` successive addItem(p) calls on `s`. */
  function AddTimes(s: seq<Line>, p: Product, n: nat): (r: seq<Line>)
    ensures n > 0 ==> HasId(r, p.id)
  {
    if n == 0 then s else AddItem(AddTimes(s, p, n - 1), p)
  }

  /** Starting from the empty cart, n adds of one product give exactly one
      line, for that product, with quantity n. */
  lemma {:induction false} AddTimesFromEmpty(p: Product, n: nat)
    requires n >= 1
    ensures AddTimes([], p, n) == [NewLine(p).(qty := n)]
  {
    if n > 1 {
      AddTimesFromEmpty(p, n - 1);
      AddItemPresent([NewLine(p).(qty := n - 1)], p, 0);
    }
  }
}
