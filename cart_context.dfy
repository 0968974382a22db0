/**
 * The cart store of the storefront: an ordered list of lines held in one state
 * cell, replaced wholesale by three actions (add, remove one, clear).
 */
module CartContext {
  import opened Products

  datatype Option<T> = None | Some(value: T)

  /** A cart line: the product's own fields plus a quantity. */
  datatype Line = Line(product: Product, quantity: int)

  /** Some line of the cart carries this product id. */
  predicate HasId(cart: seq<Line>, id: int)
  {
    exists i :: 0 <= i < |cart| && cart[i].product.id == id
  }

  /** No two lines share a product id. */
  predicate UniqueIds(cart: seq<Line>)
  {
    forall i, j :: 0 <= i < j < |cart| ==> cart[i].product.id != cart[j].product.id
  }

  /** Every line has a quantity of at least one. */
  predicate AllPositive(cart: seq<Line>)
  {
    forall i :: 0 <= i < |cart| ==> cart[i].quantity >= 1
  }

  /** The invariant every reachable cart keeps, though the store never checks it. */
  predicate WellFormed(cart: seq<Line>)
  {
    UniqueIds(cart) && AllPositive(cart)
  }

  /** `Array.prototype.find` by id: the first line with that id, if any. */
  function Find(cart: seq<Line>, id: int): (r: Option<Line>)
    ensures r.Some? <==> HasId(cart, id)
    ensures r.Some? ==> exists i :: 0 <= i < |cart| && cart[i] == r.value && r.value.product.id == id
                                    && !HasId(cart[..i], id)
  {
    if cart == [] then None
    else if cart[0].product.id == id then
      assert !HasId(cart[..0], id);
      Some(cart[0])
    else
      var r := Find(cart[1..], id);
      assert HasId(cart, id) ==> HasId(cart[1..], id) by {
        if HasId(cart, id) {
          var i :| 0 <= i < |cart| && cart[i].product.id == id;
          assert cart[1..][i - 1].product.id == id;
        }
      }
      assert r.Some? ==> exists i :: 0 <= i < |cart| && cart[i] == r.value && r.value.product.id == id
                                     && !HasId(cart[..i], id) by {
        if r.Some? {
          var i :| 0 <= i < |cart| - 1 && cart[1..][i] == r.value && r.value.product.id == id
                   && !HasId(cart[1..][..i], id);
          assert cart[..i + 1] == [cart[0]] + cart[1..][..i];
          assert cart[i + 1] == r.value;
        }
      }
      r
  }

  /** The `map` step of adding: every line with the id gets one more unit. Only quantities
      change: each line with the id rises by exactly one, every other line is as it was, and
      distinct ids stay distinct. */
  function IncrementMatching(cart: seq<Line>, id: int): (r: seq<Line>)
    ensures |r| == |cart|
    ensures forall i :: 0 <= i < |r| ==> r[i].product == cart[i].product && r[i].quantity >= cart[i].quantity
    ensures forall i :: 0 <= i < |r| && cart[i].product.id == id ==> r[i].quantity == cart[i].quantity + 1
    ensures forall i :: 0 <= i < |r| && cart[i].product.id != id ==> r[i] == cart[i]
    ensures UniqueIds(cart) ==> UniqueIds(r)
  {
    seq(|cart|, i requires 0 <= i < |cart| =>
      if cart[i].product.id == id then cart[i].(quantity := cart[i].quantity + 1) else cart[i])
  }

  /** The `map` step of removing: every line with the id gets one unit fewer. Only quantities
      change: each line with the id falls by exactly one, and every other line is as it was. */
  function DecrementMatching(cart: seq<Line>, id: int): (r: seq<Line>)
    ensures |r| == |cart|
    ensures forall i :: 0 <= i < |r| ==> r[i].product == cart[i].product
    ensures forall i :: 0 <= i < |r| ==> cart[i].quantity - 1 <= r[i].quantity <= cart[i].quantity
    ensures forall i :: 0 <= i < |r| && cart[i].product.id == id ==> r[i].quantity == cart[i].quantity - 1
    ensures forall i :: 0 <= i < |r| && cart[i].product.id != id ==> r[i] == cart[i]
  {
    seq(|cart|, i requires 0 <= i < |cart| =>
      if cart[i].product.id == id then cart[i].(quantity := cart[i].quantity - 1) else cart[i])
  }

  /** The `filter` step of removing: exactly the lines whose quantity is still above zero,
      every copy of each, in their original order. */
  function KeepPositive(cart: seq<Line>): (r: seq<Line>)
    ensures AllPositive(r)
    ensures |r| <= |cart|
    ensures forall l :: l in r <==> l in cart && l.quantity > 0
  {
    if cart == [] then []
    else (if cart[0].quantity > 0 then [cart[0]] else []) + KeepPositive(cart[1..])
  }

  /** The filter keeps every copy of each positive line and no copy of any other. */
  lemma {:induction false} KeepPositiveCounts(cart: seq<Line>, l: Line)
    ensures multiset(KeepPositive(cart))[l] == if l.quantity > 0 then multiset(cart)[l] else 0
  {
    if cart != [] {
      KeepPositiveCounts(cart[1..], l);
      assert cart == [cart[0]] + cart[1..];
      var head := if cart[0].quantity > 0 then [cart[0]] else [];
      assert multiset(KeepPositive(cart)) == multiset(head) + multiset(KeepPositive(cart[1..]));
    }
  }

  /** The filter works line by line: filtering a concatenation concatenates the filtered parts. */
  lemma {:induction false} KeepPositiveConcat(a: seq<Line>, b: seq<Line>)
    ensures KeepPositive(a + b) == KeepPositive(a) + KeepPositive(b)
  {
    if a == [] {
      assert a + b == b;
    } else {
      assert (a + b)[1..] == a[1..] + b;
      KeepPositiveConcat(a[1..], b);
    }
  }

  /** `addToCart`: bump the existing line's quantity, or append a new line of quantity one.
      Afterwards the cart holds the product's id and no id it did not hold before; it grows
      by one line exactly when the id was new. */
  function Add(cart: seq<Line>, product: Product): (r: seq<Line>)
    ensures forall x :: HasId(r, x) <==> HasId(cart, x) || x == product.id
    ensures |r| == if HasId(cart, product.id) then |cart| else |cart| + 1
  {
    if Find(cart, product.id).Some? then
      var r := IncrementMatching(cart, product.id);
      assert forall x :: HasId(r, x) <==> HasId(cart, x) by {
        forall x ensures HasId(r, x) <==> HasId(cart, x) {
          if HasId(r, x) {
            var i :| 0 <= i < |r| && r[i].product.id == x;
            assert cart[i].product.id == x;
          }
          if HasId(cart, x) {
            var i :| 0 <= i < |cart| && cart[i].product.id == x;
            assert r[i].product.id == x;
          }
        }
      }
      r
    else
      var r := cart + [Line(product, 1)];
      assert r[|cart|].product.id == product.id;
      assert forall x :: HasId(r, x) <==> HasId(cart, x) || x == product.id by {
        forall x ensures HasId(r, x) <==> HasId(cart, x) || x == product.id {
          if HasId(r, x) {
            var i :| 0 <= i < |r| && r[i].product.id == x;
            if i < |cart| { assert cart[i].product.id == x; }
          }
          if HasId(cart, x) {
            var i :| 0 <= i < |cart| && cart[i].product.id == x;
            assert r[i].product.id == x;
          }
        }
      }
      r
  }

  /** `removeFromCart`: take one unit off every line with the id, then drop emptied lines.
      Every remaining quantity is positive, the cart never grows, and no new id appears. */
  function Remove(cart: seq<Line>, id: int): (r: seq<Line>)
    ensures AllPositive(r)
    ensures |r| <= |cart|
    ensures forall x :: HasId(r, x) ==> HasId(cart, x)
  {
    var d := DecrementMatching(cart, id);
    var r := KeepPositive(d);
    assert forall x :: HasId(r, x) ==> HasId(cart, x) by {
      forall x | HasId(r, x) ensures HasId(cart, x) {
        var j :| 0 <= j < |r| && r[j].product.id == x;
        assert r[j] in d;
        var i :| 0 <= i < |d| && d[i] == r[j];
        assert cart[i].product.id == x;
      }
    }
    r
  }

  lemma {:induction false} KeepPositiveIdentity(cart: seq<Line>)
    requires AllPositive(cart)
    ensures KeepPositive(cart) == cart
  {
    if cart != [] {
      KeepPositiveIdentity(cart[1..]);
      assert [cart[0]] + cart[1..] == cart;
    }
  }

  /** Dropping the first line of a list whose lines are positive except possibly at `k`
      leaves a list positive except possibly at `k - 1`. */
  lemma TailPositiveExcept(cart: seq<Line>, k: nat)
    requires 0 < |cart|
    requires forall i :: 0 <= i < |cart| && i != k ==> cart[i].quantity > 0
    ensures forall i :: 0 <= i < |cart| - 1 && i + 1 != k ==> cart[1..][i].quantity > 0
  {
  }

  /** Putting the first line back in front of the spliced tail splices the whole list. */
  lemma ConsSplice(cart: seq<Line>, k: nat)
    requires 0 < k < |cart|
    ensures [cart[0]] + (cart[1..][..k - 1] + cart[1..][k..]) == cart[..k] + cart[k + 1..]
  {
  }

  lemma {:induction false} KeepPositiveDropsAt(cart: seq<Line>, k: nat)
    requires k < |cart| && cart[k].quantity <= 0
    requires forall i :: 0 <= i < |cart| && i != k ==> cart[i].quantity > 0
    ensures KeepPositive(cart) == cart[..k] + cart[k + 1..]
  {
    TailPositiveExcept(cart, k);
    if k == 0 {
      KeepPositiveIdentity(cart[1..]);
    } else {
      KeepPositiveDropsAt(cart[1..], k - 1);
      ConsSplice(cart, k);
    }
  }

  /** Deleting one line keeps the remaining ids distinct. */
  lemma UniqueIdsWithout(cart: seq<Line>, k: nat)
    requires UniqueIds(cart) && k < |cart|
    ensures UniqueIds(cart[..k] + cart[k + 1..])
  {
    var r := cart[..k] + cart[k + 1..];
    forall i, j | 0 <= i < j < |r|
      ensures r[i].product.id != r[j].product.id
    {
      var i' := if i < k then i else i + 1;
      var j' := if j < k then j else j + 1;
      assert r[i] == cart[i'] && r[j] == cart[j'];
    }
  }

  /** Adding a product already in the cart raises that line's quantity by exactly one; nothing else moves. */
  lemma AddExisting(cart: seq<Line>, product: Product, k: nat)
    requires UniqueIds(cart)
    requires k < |cart| && cart[k].product.id == product.id
    ensures Add(cart, product) == cart[k := cart[k].(quantity := cart[k].quantity + 1)]
  {
    assert HasId(cart, product.id);
  }

  /** Adding to the empty cart gives one line of quantity one. */
  lemma AddToEmpty(product: Product)
    ensures Add([], product) == [Line(product, 1)]
  {
    AddNew([], product);
    assert [] + [Line(product, 1)] == [Line(product, 1)];
  }

  /** Adding a product not yet in the cart appends one line of quantity one at the end. */
  lemma AddNew(cart: seq<Line>, product: Product)
    requires !HasId(cart, product.id)
    ensures Add(cart, product) == cart + [Line(product, 1)]
    ensures |Add(cart, product)| == |cart| + 1
  {
  }

  lemma AddPreservesWellFormed(cart: seq<Line>, product: Product)
    ensures WellFormed(cart) ==> WellFormed(Add(cart, product))
  {
    if !WellFormed(cart) {
    } else if HasId(cart, product.id) {
      var k :| 0 <= k < |cart| && cart[k].product.id == product.id;
      AddExisting(cart, product, k);
    } else {
      var r := cart + [Line(product, 1)];
      assert forall i :: 0 <= i < |cart| ==> r[i] == cart[i];
    }
  }

  /** Removing a product absent from a cart of positive quantities leaves the cart as it was. */
  lemma RemoveAbsent(cart: seq<Line>, id: int)
    requires AllPositive(cart) && !HasId(cart, id)
    ensures Remove(cart, id) == cart
  {
    assert DecrementMatching(cart, id) == cart;
    KeepPositiveIdentity(cart);
  }

  /** Removing from a line of quantity above one lowers it by exactly one, in place. */
  lemma RemoveLowers(cart: seq<Line>, id: int, k: nat)
    requires WellFormed(cart)
    requires k < |cart| && cart[k].product.id == id && cart[k].quantity > 1
    ensures Remove(cart, id) == cart[k := cart[k].(quantity := cart[k].quantity - 1)]
  {
    var d := DecrementMatching(cart, id);
    assert d == cart[k := cart[k].(quantity := cart[k].quantity - 1)];
    KeepPositiveIdentity(d);
  }

  /** Removing from a line of quantity one deletes it; the other lines keep their order. */
  lemma RemoveDeletes(cart: seq<Line>, id: int, k: nat)
    requires WellFormed(cart)
    requires k < |cart| && cart[k].product.id == id && cart[k].quantity == 1
    ensures Remove(cart, id) == cart[..k] + cart[k + 1..]
  {
    var d := DecrementMatching(cart, id);
    KeepPositiveDropsAt(d, k);
    assert d[..k] == cart[..k];
    assert d[k + 1..] == cart[k + 1..];
  }

  lemma RemovePreservesWellFormed(cart: seq<Line>, id: int)
    ensures WellFormed(cart) ==> WellFormed(Remove(cart, id))
  {
    if !WellFormed(cart) {
    } else if HasId(cart, id) {
      var k :| 0 <= k < |cart| && cart[k].product.id == id;
      if cart[k].quantity > 1 {
        RemoveLowers(cart, id, k);
      } else {
        RemoveDeletes(cart, id, k);
        UniqueIdsWithout(cart, k);
      }
    } else {
      RemoveAbsent(cart, id);
    }
  }

  /** Removing an id already in the cart right after adding it undoes the quantity bump. */
  lemma RemoveAfterAddExisting(cart: seq<Line>, product: Product, k: nat)
    requires WellFormed(cart)
    requires k < |cart| && cart[k].product.id == product.id
    ensures Remove(Add(cart, product), product.id) == cart
  {
    var bumped := cart[k := cart[k].(quantity := cart[k].quantity + 1)];
    AddExisting(cart, product, k);
    assert WellFormed(bumped) by {
      assert forall i :: 0 <= i < |cart| ==> bumped[i].product == cart[i].product;
    }
    RemoveLowers(bumped, product.id, k);
    assert bumped[k := bumped[k].(quantity := bumped[k].quantity - 1)] == cart;
  }

  /** Removing a new id right after adding it deletes the appended line. */
  lemma RemoveAfterAddNew(cart: seq<Line>, product: Product)
    requires WellFormed(cart) && !HasId(cart, product.id)
    ensures Remove(Add(cart, product), product.id) == cart
  {
    var added := cart + [Line(product, 1)];
    AddNew(cart, product);
    AddPreservesWellFormed(cart, product);
    RemoveDeletes(added, product.id, |cart|);
    assert added[..|cart|] + added[|cart| + 1..] == cart;
  }

  /** Removing a product right after adding it gives back the original cart. */
  lemma RemoveAfterAdd(cart: seq<Line>, product: Product)
    requires WellFormed(cart)
    ensures Remove(Add(cart, product), product.id) == cart
  {
    if HasId(cart, product.id) {
      var k :| 0 <= k < |cart| && cart[k].product.id == product.id;
      RemoveAfterAddExisting(cart, product, k);
    } else {
      RemoveAfterAddNew(cart, product);
    }
  }

  /** The `cartItems` state cell and the three actions that replace it. */
  class CartStore {
    var cartItems: seq<Line>

    ghost predicate Valid()
      reads this
    {
      WellFormed(cartItems)
    }

    /** The cart starts empty. */
    constructor ()
      ensures cartItems == [] && Valid()
    {
      cartItems := [];
    }

    method AddToCart(product: Product)
      modifies this
      ensures cartItems == Add(old(cartItems), product)
      ensures old(Valid()) ==> Valid()
    {
      AddPreservesWellFormed(cartItems, product);
      cartItems := Add(cartItems, product);
    }

    method RemoveFromCart(id: int)
      modifies this
      ensures cartItems == Remove(old(cartItems), id)
      ensures old(Valid()) ==> Valid()
    {
      RemovePreservesWellFormed(cartItems, id);
      cartItems := Remove(cartItems, id);
    }

    /** Clearing yields the empty cart from any state. */
    method ClearCart()
      modifies this
      ensures cartItems == [] && Valid()
    {
      cartItems := [];
    }
  }
}
