/** The cart page: per-line subtotals, the cart total, the empty-cart branch and its buttons. */
module CartPage {
  import opened Products
  import opened CartContext
  import opened Sums

  /** The line's price times its quantity, shown at the right of each line: one unit costs
      the price, and any positive quantity of a non-negative price costs at least the price. */
  function Subtotal(line: Line): (r: int)
    ensures line.quantity == 1 ==> r == line.product.price
    ensures line.product.price >= 0 && line.quantity >= 1 ==> r >= line.product.price
  {
    var p, q := line.product.price, line.quantity;
    assert p >= 0 && q >= 1 ==> p * q == p + p * (q - 1) && p * (q - 1) >= 0;
    p * q
  }

  /** The subtotals of the lines, in cart order. */
  function Subtotals(cart: seq<Line>): (r: seq<int>)
    ensures |r| == |cart|
  {
    seq(|cart|, i requires 0 <= i < |cart| => Subtotal(cart[i]))
  }

  /** The cart total: a left fold from 0 that adds each line's price times its quantity.
      It equals the sum of the subtotals displayed line by line. */
  function TotalAmount(cart: seq<Line>): (r: int)
    ensures r == Sum(Subtotals(cart))
  {
    if cart == [] then 0
    else
      var n := |cart| - 1;
      assert Subtotals(cart) == Subtotals(cart[..n]) + [Subtotal(cart[n])];
      SumConcat(Subtotals(cart[..n]), [Subtotal(cart[n])]);
      TotalAmount(cart[..n]) + Subtotal(cart[n])
  }

  /** What the page shows: the empty message, or the lines with their subtotals and the total. */
  datatype Page = EmptyMessage | Listing(lines: seq<Line>, subtotals: seq<int>, total: int)

  /** The buttons of the page and the line each per-line button belongs to. */
  datatype Button = Decrease(line: Line) | Increase(line: Line) | RemoveLine(line: Line) | ClearAll

  /** An empty cart takes the early return and no total is computed; otherwise the
      page lists every line and a total that agrees with the listed subtotals. */
  function Render(cart: seq<Line>): (r: Page)
    ensures r.EmptyMessage? <==> cart == []
    ensures r.Listing? ==> r.lines == cart && |r.subtotals| == |cart| && r.total == Sum(r.subtotals)
    ensures r.Listing? ==> forall i :: 0 <= i < |cart| ==> r.subtotals[i] == cart[i].product.price * cart[i].quantity
  {
    if |cart| == 0 then EmptyMessage
    else
      Listing(cart, Subtotals(cart), TotalAmount(cart))
  }

  /** The cart action each button calls: "–" and "Remove" both call removeFromCart, "+" calls
      addToCart with the line itself, "Clear Cart" calls clearCart. No button breaks the cart's
      invariant, and "+" leaves the line's product in the cart. */
  function Press(cart: seq<Line>, button: Button): (r: seq<Line>)
    ensures button.Decrease? || button.RemoveLine? ==> r == Remove(cart, button.line.product.id)
    ensures button.Increase? ==> r == Add(cart, button.line.product)
    ensures WellFormed(cart) ==> WellFormed(r)
    ensures button.Increase? ==> HasId(r, button.line.product.id)
    ensures button.ClearAll? ==> r == []
  {
    match button
    case Decrease(line) =>
      RemovePreservesWellFormed(cart, line.product.id);
      Remove(cart, line.product.id)
    case Increase(line) =>
      AddPreservesWellFormed(cart, line.product);
      Add(cart, line.product)
    case RemoveLine(line) =>
      RemovePreservesWellFormed(cart, line.product.id);
      Remove(cart, line.product.id)
    case ClearAll => []
  }

  /** Replacing one line changes the total by exactly the change in that line's subtotal. */
  lemma TotalAmountUpdate(cart: seq<Line>, k: nat, line: Line)
    requires k < |cart|
    ensures TotalAmount(cart[k := line]) == TotalAmount(cart) - Subtotal(cart[k]) + Subtotal(line)
  {
    assert Subtotals(cart[k := line]) == Subtotals(cart)[k := Subtotal(line)];
    SumUpdate(Subtotals(cart), k, Subtotal(line));
  }

  /** Deleting one line lowers the total by exactly that line's subtotal. */
  lemma TotalAmountDelete(cart: seq<Line>, k: nat)
    requires k < |cart|
    ensures TotalAmount(cart[..k] + cart[k + 1..]) == TotalAmount(cart) - Subtotal(cart[k])
  {
    var rest := cart[..k] + cart[k + 1..];
    var t := Subtotals(cart);
    forall i | 0 <= i < |rest|
      ensures Subtotals(rest)[i] == (t[..k] + t[k + 1..])[i]
    {
      if i < k {
        assert rest[i] == cart[i];
      } else {
        assert rest[i] == cart[i + 1];
      }
    }
    assert Subtotals(rest) == t[..k] + t[k + 1..];
    SumRemoveAt(t, k);
  }

  /** One unit more or less of a line changes its subtotal by exactly its price. */
  lemma SubtotalStep(line: Line)
    ensures Subtotal(line.(quantity := line.quantity + 1)) == Subtotal(line) + line.product.price
    ensures Subtotal(line.(quantity := line.quantity - 1)) == Subtotal(line) - line.product.price
  {
    var p, q := line.product.price, line.quantity;
    assert p * (q + 1) == p * q + p;
    assert p * (q - 1) == p * q - p;
  }

  /** One unit more or less on one line moves the total by exactly that line's price. */
  lemma TotalAmountStep(cart: seq<Line>, k: nat)
    requires k < |cart|
    ensures TotalAmount(cart[k := cart[k].(quantity := cart[k].quantity + 1)]) == TotalAmount(cart) + cart[k].product.price
    ensures TotalAmount(cart[k := cart[k].(quantity := cart[k].quantity - 1)]) == TotalAmount(cart) - cart[k].product.price
  {
    TotalAmountUpdate(cart, k, cart[k].(quantity := cart[k].quantity + 1));
    TotalAmountUpdate(cart, k, cart[k].(quantity := cart[k].quantity - 1));
    SubtotalStep(cart[k]);
  }

  /** "+" on a listed line raises its quantity by one and the total by its price. */
  lemma IncreaseRaisesTotal(cart: seq<Line>, k: nat)
    requires UniqueIds(cart) && k < |cart|
    ensures Press(cart, Increase(cart[k])) == cart[k := cart[k].(quantity := cart[k].quantity + 1)]
    ensures TotalAmount(Press(cart, Increase(cart[k]))) == TotalAmount(cart) + cart[k].product.price
  {
    AddExisting(cart, cart[k].product, k);
    TotalAmountStep(cart, k);
  }

  /** "Remove" does the same as "–": on a line of quantity above one it lowers the quantity
      by one and keeps the line, and the total falls by the line's price. */
  lemma RemoveButtonDecrements(cart: seq<Line>, k: nat)
    requires WellFormed(cart) && k < |cart| && cart[k].quantity > 1
    ensures Press(cart, RemoveLine(cart[k])) == Press(cart, Decrease(cart[k]))
    ensures Press(cart, RemoveLine(cart[k])) == cart[k := cart[k].(quantity := cart[k].quantity - 1)]
    ensures TotalAmount(Press(cart, RemoveLine(cart[k]))) == TotalAmount(cart) - cart[k].product.price
  {
    RemoveLowers(cart, cart[k].product.id, k);
    TotalAmountStep(cart, k);
  }

  /** "–" on a line of quantity one deletes the line; the other lines keep their order, and
      the total falls by the line's price. */
  lemma DecreaseDeletesLastUnit(cart: seq<Line>, k: nat)
    requires WellFormed(cart) && k < |cart| && cart[k].quantity == 1
    ensures Press(cart, Decrease(cart[k])) == cart[..k] + cart[k + 1..]
    ensures TotalAmount(Press(cart, Decrease(cart[k]))) == TotalAmount(cart) - cart[k].product.price
  {
    RemoveDeletes(cart, cart[k].product.id, k);
    TotalAmountDelete(cart, k);
  }

  /** After "Clear Cart" the page shows the empty message, and the fold over no lines is 0. */
  lemma ClearShowsEmpty(cart: seq<Line>)
    ensures Render(Press(cart, ClearAll)) == EmptyMessage
    ensures TotalAmount(Press(cart, ClearAll)) == 0
  {
  }

  /** Adding a product twice to the empty cart gives one line of quantity two. */
  lemma HatAddedTwice(hat: Product)
    ensures Add(Add([], hat), hat) == [Line(hat, 2)]
  {
    AddToEmpty(hat);
    AddExisting([Line(hat, 1)], hat, 0);
  }

  /** Adding a product twice to the empty cart and removing it once leaves one unit. */
  lemma HatRemovedOnce(hat: Product)
    ensures Remove(Add(Add([], hat), hat), hat.id) == [Line(hat, 1)]
  {
    HatAddedTwice(hat);
    RemoveLowers([Line(hat, 2)], hat.id, 0);
  }

  /** The total of a one-line cart is that line's subtotal. */
  lemma TotalAmountSingle(line: Line)
    ensures TotalAmount([line]) == Subtotal(line)
  {
    assert [line][..0] == [];
  }

  /** Adding the same hat twice and then pressing "–" once leaves one hat line of quantity one;
      "Clear Cart" then empties the cart and its total is 0. */
  lemma HatScenario(hat: Product)
    ensures Remove(Add(Add([], hat), hat), hat.id) == [Line(hat, 1)]
    ensures TotalAmount(Remove(Add(Add([], hat), hat), hat.id)) == hat.price
    ensures Render(Press(Remove(Add(Add([], hat), hat), hat.id), ClearAll)) == EmptyMessage
  {
    HatRemovedOnce(hat);
    TotalAmountSingle(Line(hat, 1));
  }
}
