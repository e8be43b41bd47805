/**
 * The customer's cart on the menu page: a sequence of product entries with
 * quantities, rewritten by `addToCart` and `updateQuantity` and summed into
 * the item count and the total price.
 */
module Cart {
  import opened Seqs
  import opened Catalog

  datatype CartItem = CartItem(product: Product, quantity: int)

  /** No two entries share a product id. */
  predicate UniqueIds(cart: seq<CartItem>)
  {
    forall i, j :: 0 <= i < j < |cart| ==> cart[i].product.id != cart[j].product.id
  }

  predicate AllPositive(cart: seq<CartItem>)
  {
    forall i :: 0 <= i < |cart| ==> cart[i].quantity > 0
  }

  /** The cart invariant: unique product ids and positive quantities. */
  predicate ValidCart(cart: seq<CartItem>)
  {
    UniqueIds(cart) && AllPositive(cart)
  }

  /** Some entry holds the product with id `id` (the `find` of `addToCart`). */
  predicate HasProduct(cart: seq<CartItem>, id: string)
  {
    exists i :: 0 <= i < |cart| && cart[i].product.id == id
  }

  /** The `map` step: add `delta` to the quantity of every entry for product `id`. */
  function Bump(cart: seq<CartItem>, id: string, delta: int): seq<CartItem>
  {
    seq(|cart|, i requires 0 <= i < |cart| =>
      if cart[i].product.id == id then cart[i].(quantity := cart[i].quantity + delta) else cart[i])
  }

  /** `addToCart`: one more of a product already present, otherwise a new entry of one at the end. */
  function AddToCart(cart: seq<CartItem>, p: Product): seq<CartItem>
  {
    if HasProduct(cart, p.id) then Bump(cart, p.id, 1) else cart + [CartItem(p, 1)]
  }

  /** The `filter` condition of `updateQuantity`. */
  predicate Stays(item: CartItem)
  {
    item.quantity > 0
  }

  /** `updateQuantity`: add `delta` to the entry for `id`, then drop entries whose quantity is not positive. */
  function UpdateQuantity(cart: seq<CartItem>, id: string, delta: int): seq<CartItem>
  {
    Filter(Bump(cart, id, delta), Stays)
  }

  /** `totalItems`: the sum of the quantities. */
  function TotalItems(cart: seq<CartItem>): int
  {
    if cart == [] then 0 else cart[0].quantity + TotalItems(cart[1..])
  }

  /** `totalPrice`: the sum of price times quantity. */
  function TotalPrice(cart: seq<CartItem>): int
  {
    if cart == [] then 0 else cart[0].product.price * cart[0].quantity + TotalPrice(cart[1..])
  }

  /** Both totals add up over concatenation. */
  lemma {:induction false} TotalsAppend(a: seq<CartItem>, b: seq<CartItem>)
    ensures TotalItems(a + b) == TotalItems(a) + TotalItems(b)
    ensures TotalPrice(a + b) == TotalPrice(a) + TotalPrice(b)
  {
    if a == [] {
      assert a + b == b;
    } else {
      assert (a + b)[0] == a[0];
      assert (a + b)[1..] == a[1..] + b;
      TotalsAppend(a[1..], b);
    }
  }

  /** Adding a product already in the cart adds one to each of its entries; the length and every other entry stay. */
  lemma AddToCartExisting(cart: seq<CartItem>, p: Product)
    requires HasProduct(cart, p.id)
    ensures var r := AddToCart(cart, p);
      && |r| == |cart|
      && forall i :: 0 <= i < |cart| ==>
           && r[i].product == cart[i].product
           && r[i].quantity == cart[i].quantity + (if cart[i].product.id == p.id then 1 else 0)
  {
  }

  /** In a cart with unique ids, bumping the product of entry `k` rewrites that entry alone. */
  lemma BumpAt(cart: seq<CartItem>, k: nat, delta: int)
    requires UniqueIds(cart) && k < |cart|
    ensures Bump(cart, cart[k].product.id, delta)
         == cart[..k] + [cart[k].(quantity := cart[k].quantity + delta)] + cart[k + 1..]
  {
  }

  /**
   * In a valid cart, `updateQuantity` on the product of entry `k` replaces that entry by
   * one with the new quantity when it stays positive and removes it otherwise; the
   * entries before and after it are kept, in order.
   */
  lemma UpdateQuantityAt(cart: seq<CartItem>, k: nat, delta: int)
    requires ValidCart(cart) && k < |cart|
    ensures var q := cart[k].quantity + delta;
      UpdateQuantity(cart, cart[k].product.id, delta)
        == cart[..k] + (if q > 0 then [cart[k].(quantity := q)] else []) + cart[k + 1..]
  {
    var item := cart[k].(quantity := cart[k].quantity + delta);
    BumpAt(cart, k, delta);
    FilterConcat(cart[..k] + [item], cart[k + 1..], Stays);
    FilterConcat(cart[..k], [item], Stays);
    FilterKeepsAll(cart[..k], Stays);
    FilterKeepsAll(cart[k + 1..], Stays);
    assert Filter([item], Stays) == if Stays(item) then [item] else [];
  }

  /** `updateQuantity` for a product not in a cart of positive quantities leaves the cart unchanged. */
  lemma UpdateQuantityAbsent(cart: seq<CartItem>, id: string, delta: int)
    requires AllPositive(cart) && !HasProduct(cart, id)
    ensures UpdateQuantity(cart, id, delta) == cart
  {
    assert Bump(cart, id, delta) == cart;
    FilterKeepsAll(cart, Stays);
  }

  /** Every entry that survives `updateQuantity` has a positive quantity, whatever the cart. */
  lemma UpdateQuantityPositive(cart: seq<CartItem>, id: string, delta: int)
    ensures AllPositive(UpdateQuantity(cart, id, delta))
  {
  }

  /** The index of the entry for `id` in a cart that has one. */
  lemma IndexOf(cart: seq<CartItem>, id: string) returns (k: nat)
    requires HasProduct(cart, id)
    ensures k < |cart| && cart[k].product.id == id
  {
    k :| 0 <= k < |cart| && cart[k].product.id == id;
  }

  /** `addToCart` keeps the cart valid and leaves the product in it. */
  lemma AddToCartKeepsValid(cart: seq<CartItem>, p: Product)
    requires ValidCart(cart)
    ensures ValidCart(AddToCart(cart, p)) && HasProduct(AddToCart(cart, p), p.id)
  {
    var r := AddToCart(cart, p);
    if HasProduct(cart, p.id) {
      var k := IndexOf(cart, p.id);
      assert r[k].product.id == p.id;
    } else {
      assert r[|cart|].product.id == p.id;
    }
  }

  /**
   * Replacing entry `k` of a valid cart by at most one entry for the same product with a
   * positive quantity keeps the cart valid.
   */
  lemma ReplaceKeepsValid(cart: seq<CartItem>, k: nat, mid: seq<CartItem>)
    requires ValidCart(cart) && k < |cart| && |mid| <= 1
    requires forall i :: 0 <= i < |mid| ==> mid[i].product.id == cart[k].product.id && mid[i].quantity > 0
    ensures ValidCart(cart[..k] + mid + cart[k + 1..])
  {
    var r := cart[..k] + mid + cart[k + 1..];
    // position in `cart` of entry i of `r`
    var src := (i: int) => if i < k || (i == k && |mid| == 1) then i else i + 1 - |mid|;
    assert forall i :: 0 <= i < |r| ==> 0 <= src(i) < |cart| && r[i].product.id == cart[src(i)].product.id;
    assert forall i, j :: 0 <= i < j < |r| ==> src(i) < src(j);
  }

  /** `updateQuantity` keeps the cart valid. */
  lemma UpdateQuantityKeepsValid(cart: seq<CartItem>, id: string, delta: int)
    requires ValidCart(cart)
    ensures ValidCart(UpdateQuantity(cart, id, delta))
  {
    if HasProduct(cart, id) {
      var k := IndexOf(cart, id);
      UpdateQuantityAt(cart, k, delta);
      var q := cart[k].quantity + delta;
      ReplaceKeepsValid(cart, k, if q > 0 then [cart[k].(quantity := q)] else []);
    } else {
      UpdateQuantityAbsent(cart, id, delta);
    }
  }

  lemma SingletonTotals(item: CartItem)
    ensures TotalItems([item]) == item.quantity
    ensures TotalPrice([item]) == item.product.price * item.quantity
  {
    assert [item][1..] == [];
  }

  lemma MulAdd(a: int, b: int, c: int)
    ensures a * (b + c) == a * b + a * c
  {
  }

  /** The totals of a cart whose entry `k` is replaced by the entries `mid`. */
  lemma ReplaceTotals(cart: seq<CartItem>, k: nat, mid: seq<CartItem>)
    requires k < |cart|
    ensures TotalItems(cart[..k] + mid + cart[k + 1..]) == TotalItems(cart) - cart[k].quantity + TotalItems(mid)
    ensures TotalPrice(cart[..k] + mid + cart[k + 1..])
         == TotalPrice(cart) - cart[k].product.price * cart[k].quantity + TotalPrice(mid)
  {
    assert cart == cart[..k] + [cart[k]] + cart[k + 1..];
    TotalsAppend(cart[..k] + [cart[k]], cart[k + 1..]);
    TotalsAppend(cart[..k], [cart[k]]);
    TotalsAppend(cart[..k] + mid, cart[k + 1..]);
    TotalsAppend(cart[..k], mid);
  }

  /**
   * Adding a product raises the item count by one. The total price rises by the price
   * of the cart's own entry for that product when there is one (that entry keeps its
   * product snapshot), and by the added product's price otherwise.
   */
  lemma AddToCartTotals(cart: seq<CartItem>, p: Product)
    requires ValidCart(cart)
    ensures TotalItems(AddToCart(cart, p)) == TotalItems(cart) + 1
    ensures forall k :: 0 <= k < |cart| && cart[k].product.id == p.id ==>
      TotalPrice(AddToCart(cart, p)) == TotalPrice(cart) + cart[k].product.price
    ensures !HasProduct(cart, p.id) ==> TotalPrice(AddToCart(cart, p)) == TotalPrice(cart) + p.price
  {
    if HasProduct(cart, p.id) {
      var k := IndexOf(cart, p.id);
      var item := cart[k];
      BumpAt(cart, k, 1);
      ReplaceTotals(cart, k, [item.(quantity := item.quantity + 1)]);
      SingletonTotals(item.(quantity := item.quantity + 1));
      MulAdd(item.product.price, item.quantity, 1);
      forall j | 0 <= j < |cart| && cart[j].product.id == p.id
        ensures cart[j].product.price == item.product.price
      {
        assert j == k;
      }
    } else {
      TotalsAppend(cart, [CartItem(p, 1)]);
      SingletonTotals(CartItem(p, 1));
    }
  }

  /** How many of product `id` the cart holds, over all its entries. */
  function QuantityOf(cart: seq<CartItem>, id: string): int
  {
    if cart == [] then 0
    else (if cart[0].product.id == id then cart[0].quantity else 0) + QuantityOf(cart[1..], id)
  }

  lemma {:induction false} QuantityOfAppend(a: seq<CartItem>, b: seq<CartItem>, id: string)
    ensures QuantityOf(a + b, id) == QuantityOf(a, id) + QuantityOf(b, id)
  {
    if a == [] {
      assert a + b == b;
    } else {
      assert (a + b)[0] == a[0];
      assert (a + b)[1..] == a[1..] + b;
      QuantityOfAppend(a[1..], b, id);
    }
  }

  lemma QuantityOfReplace(cart: seq<CartItem>, k: nat, item: CartItem, id: string)
    requires k < |cart|
    ensures QuantityOf(cart[..k] + [item] + cart[k + 1..], id)
         == QuantityOf(cart, id) - QuantityOf([cart[k]], id) + QuantityOf([item], id)
  {
    assert cart == cart[..k] + [cart[k]] + cart[k + 1..];
    QuantityOfAppend(cart[..k] + [cart[k]], cart[k + 1..], id);
    QuantityOfAppend(cart[..k], [cart[k]], id);
    QuantityOfAppend(cart[..k] + [item], cart[k + 1..], id);
    QuantityOfAppend(cart[..k], [item], id);
  }

  /**
   * In a valid cart, `addToCart` adds one to the quantity held of the added product and
   * leaves the quantity of every other product alone; the existing entries keep their
   * products and places, and a new entry appears only for a product not yet in the cart.
   */
  lemma AddToCartQuantities(cart: seq<CartItem>, p: Product, id: string)
    requires ValidCart(cart)
    ensures var r := AddToCart(cart, p);
      && QuantityOf(r, id) == QuantityOf(cart, id) + (if id == p.id then 1 else 0)
      && |r| == |cart| + (if HasProduct(cart, p.id) then 0 else 1)
      && forall i :: 0 <= i < |cart| ==> r[i].product == cart[i].product
  {
    if HasProduct(cart, p.id) {
      var k := IndexOf(cart, p.id);
      var item := cart[k].(quantity := cart[k].quantity + 1);
      BumpAt(cart, k, 1);
      QuantityOfReplace(cart, k, item, id);
      assert [cart[k]][1..] == [] && [item][1..] == [];
    } else {
      QuantityOfAppend(cart, [CartItem(p, 1)], id);
      assert [CartItem(p, 1)][1..] == [];
    }
  }

  /**
   * `updateQuantity` on the product of entry `k` of a valid cart changes the item count by
   * `delta` and the total by price times `delta` when the entry stays, and takes the whole
   * entry off both totals when it is removed.
   */
  lemma UpdateQuantityTotals(cart: seq<CartItem>, k: nat, delta: int)
    requires ValidCart(cart) && k < |cart|
    ensures var r := UpdateQuantity(cart, cart[k].product.id, delta);
      cart[k].quantity + delta > 0 ==>
        && TotalItems(r) == TotalItems(cart) + delta
        && TotalPrice(r) == TotalPrice(cart) + cart[k].product.price * delta
    ensures var r := UpdateQuantity(cart, cart[k].product.id, delta);
      cart[k].quantity + delta <= 0 ==>
        && TotalItems(r) == TotalItems(cart) - cart[k].quantity
        && TotalPrice(r) == TotalPrice(cart) - cart[k].product.price * cart[k].quantity
  {
    var item := cart[k];
    var q := item.quantity + delta;
    UpdateQuantityAt(cart, k, delta);
    if q > 0 {
      var mid := [item.(quantity := q)];
      ReplaceTotals(cart, k, mid);
      SingletonTotals(mid[0]);
      MulAdd(item.product.price, item.quantity, delta);
    } else {
      ReplaceTotals(cart, k, []);
    }
  }

  /** A button press on the menu page that changes the cart. */
  datatype CartAction = Add(product: Product) | Change(productId: string, delta: int)

  function Apply(cart: seq<CartItem>, a: CartAction): seq<CartItem>
  {
    match a
    case Add(p) => AddToCart(cart, p)
    case Change(id, delta) => UpdateQuantity(cart, id, delta)
  }

  /** The cart after a run of button presses. */
  function Replay(cart: seq<CartItem>, actions: seq<CartAction>): seq<CartItem>
    decreases |actions|
  {
    if actions == [] then cart else Replay(Apply(cart, actions[0]), actions[1..])
  }

  /** Whatever the presses, a valid cart stays valid: unique ids and no quantity at or below zero. */
  lemma {:induction false} ReplayKeepsValid(cart: seq<CartItem>, actions: seq<CartAction>)
    requires ValidCart(cart)
    ensures ValidCart(Replay(cart, actions))
    decreases |actions|
  {
    if actions != [] {
      match actions[0] {
        case Add(p) => AddToCartKeepsValid(cart, p);
        case Change(id, delta) => UpdateQuantityKeepsValid(cart, id, delta);
      }
      ReplayKeepsValid(Apply(cart, actions[0]), actions[1..]);
    }
  }
}
