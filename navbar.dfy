/** The navigation bar's item count and its cart badge. */
module Navbar {
  import opened Products
  import opened CartContext
  import opened Sums

  /** The quantities of the lines, in cart order. */
  function Quantities(cart: seq<Line>): (r: seq<int>)
    ensures |r| == |cart|
  {
    seq(|cart|, i requires 0 <= i < |cart| => cart[i].quantity)
  }

  /** The item count: a left fold from 0 that adds each line's quantity. It equals the
      plain sum of all quantities. */
  function TotalCount(cart: seq<Line>): (r: int)
    ensures r == Sum(Quantities(cart))
  {
    if cart == [] then 0
    else
      var n := |cart| - 1;
      assert Quantities(cart) == Quantities(cart[..n]) + [cart[n].quantity];
      SumConcat(Quantities(cart[..n]), [cart[n].quantity]);
      TotalCount(cart[..n]) + cart[n].quantity
  }

  /** The count badge is rendered exactly when the count is positive, so never on an empty cart. */
  predicate BadgeShown(cart: seq<Line>)
    ensures BadgeShown(cart) ==> cart != []
  {
    TotalCount(cart) > 0
  }

  /** With every quantity at least one, the count is at least the number of lines,
      and the badge shows exactly when the cart has a line. */
  lemma CountBounds(cart: seq<Line>)
    requires AllPositive(cart)
    ensures TotalCount(cart) >= |cart|
    ensures BadgeShown(cart) <==> cart != []
  {
    SumAtLeastLength(Quantities(cart));
  }

  /** Adding a product raises the count by exactly one. */
  lemma CountAfterAdd(cart: seq<Line>, product: Product)
    requires UniqueIds(cart)
    ensures TotalCount(Add(cart, product)) == TotalCount(cart) + 1
  {
    var added := Add(cart, product);
    if HasId(cart, product.id) {
      var k :| 0 <= k < |cart| && cart[k].product.id == product.id;
      AddExisting(cart, product, k);
      CountAfterQuantityChange(cart, k, cart[k].quantity + 1);
    } else {
      assert Quantities(added) == Quantities(cart) + [1];
      SumConcat(Quantities(cart), [1]);
    }
  }

  /** Changing one line's quantity moves the count by exactly the change. */
  lemma CountAfterQuantityChange(cart: seq<Line>, k: nat, quantity: int)
    requires k < |cart|
    ensures TotalCount(cart[k := cart[k].(quantity := quantity)]) == TotalCount(cart) - cart[k].quantity + quantity
  {
    assert Quantities(cart[k := cart[k].(quantity := quantity)]) == Quantities(cart)[k := quantity];
    SumUpdate(Quantities(cart), k, quantity);
  }

  /** Deleting one line lowers the count by exactly that line's quantity. */
  lemma CountAfterDelete(cart: seq<Line>, k: nat)
    requires k < |cart|
    ensures TotalCount(cart[..k] + cart[k + 1..]) == TotalCount(cart) - cart[k].quantity
  {
    var rest := cart[..k] + cart[k + 1..];
    var q := Quantities(cart);
    forall i | 0 <= i < |rest|
      ensures Quantities(rest)[i] == (q[..k] + q[k + 1..])[i]
    {
      if i < k {
        assert rest[i] == cart[i];
      } else {
        assert rest[i] == cart[i + 1];
      }
    }
    assert Quantities(rest) == q[..k] + q[k + 1..];
    SumRemoveAt(q, k);
  }

  /** Removing the product of line k lowers the count by exactly one. */
  lemma CountAfterRemoveAt(cart: seq<Line>, id: int, k: nat)
    requires WellFormed(cart) && k < |cart| && cart[k].product.id == id
    ensures TotalCount(Remove(cart, id)) == TotalCount(cart) - 1
  {
    if cart[k].quantity > 1 {
      RemoveLowers(cart, id, k);
      CountAfterQuantityChange(cart, k, cart[k].quantity - 1);
    } else {
      RemoveDeletes(cart, id, k);
      CountAfterDelete(cart, k);
    }
  }

  /** Removing a product in the cart lowers the count by exactly one; an absent id changes nothing. */
  lemma CountAfterRemove(cart: seq<Line>, id: int)
    requires WellFormed(cart)
    ensures TotalCount(Remove(cart, id)) == TotalCount(cart) - (if HasId(cart, id) then 1 else 0)
  {
    if HasId(cart, id) {
      var k :| 0 <= k < |cart| && cart[k].product.id == id;
      CountAfterRemoveAt(cart, id, k);
    } else {
      RemoveAbsent(cart, id);
    }
  }
}
