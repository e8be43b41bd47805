/**
 * The customer-facing menu page: the grouping of products by category, the
 * rows written when an order is submitted, and the page state around that
 * submission.
 */
module MenuPage {
  import opened Wrappers
  import opened Seqs
  import opened Catalog
  import opened OrderStatus
  import Cart

  // ---------------------------------------------------------------------------
  // Menu grouping

  /** A category with the products shown under it. */
  datatype CategoryGroup = CategoryGroup(category: Category, products: seq<Product>)

  /** The `filter` condition of a group: `p.category_id === cat.id`. */
  function InCategory(categoryId: string): Product -> bool
  {
    (p: Product) => p.categoryId == Some(categoryId)
  }

  /** The products whose category reference equals `categoryId`, in menu order. */
  function ProductsIn(products: seq<Product>, categoryId: string): seq<Product>
  {
    Filter(products, InCategory(categoryId))
  }

  /** `groupedProducts`: one group per category, in category order. */
  function GroupedProducts(categories: seq<Category>, products: seq<Product>): seq<CategoryGroup>
  {
    seq(|categories|, i requires 0 <= i < |categories| =>
      CategoryGroup(categories[i], ProductsIn(products, categories[i].id)))
  }

  /** A category reference that JavaScript treats as false: null or the empty string. */
  predicate NoCategory(p: Product)
  {
    p.categoryId == None || p.categoryId == Some("")
  }

  /** `uncategorized`: the products without a category, in menu order. */
  function Uncategorized(products: seq<Product>): seq<Product>
  {
    Filter(products, NoCategory)
  }

  /**
   * Group `i` belongs to category `i` and holds exactly the products whose category
   * reference is that category's id, each as often as in the product list.
   */
  lemma GroupContents(categories: seq<Category>, products: seq<Product>, i: nat, p: Product)
    requires i < |categories|
    ensures var groups := GroupedProducts(categories, products);
      && |groups| == |categories|
      && groups[i].category == categories[i]
      && (p in groups[i].products <==> p in products && p.categoryId == Some(categories[i].id))
      && multiset(groups[i].products)[p]
         == if p.categoryId == Some(categories[i].id) then multiset(products)[p] else 0
  {
    FilterCount(products, InCategory(categories[i].id), p);
  }

  /** Grouping keeps the menu order: the group of a split product list is the split of the groups. */
  lemma GroupKeepsOrder(a: seq<Product>, b: seq<Product>, categoryId: string)
    ensures ProductsIn(a + b, categoryId) == ProductsIn(a, categoryId) + ProductsIn(b, categoryId)
  {
    FilterConcat(a, b, InCategory(categoryId));
  }

  /**
   * The uncategorized list holds exactly the products whose category reference is null or
   * empty, each as often as in the product list, in menu order.
   */
  lemma UncategorizedContents(products: seq<Product>, p: Product)
    ensures p in Uncategorized(products) <==> p in products && NoCategory(p)
    ensures multiset(Uncategorized(products))[p] == if NoCategory(p) then multiset(products)[p] else 0
  {
    FilterCount(products, NoCategory, p);
  }

  /**
   * A product appears on the menu, in some group or among the uncategorized, exactly when
   * its category reference is null, empty, or the id of one of the categories: a product
   * that refers to a category not in the list is not shown.
   */
  lemma ShownOnMenu(categories: seq<Category>, products: seq<Product>, p: Product)
    requires p in products
    ensures var groups := GroupedProducts(categories, products);
      (p in Uncategorized(products) || exists i :: 0 <= i < |groups| && p in groups[i].products)
      <==>
      (NoCategory(p) || exists i :: 0 <= i < |categories| && p.categoryId == Some(categories[i].id))
  {
    var groups := GroupedProducts(categories, products);
    UncategorizedContents(products, p);
    forall i | 0 <= i < |categories|
      ensures p in groups[i].products <==> p.categoryId == Some(categories[i].id)
    {
      GroupContents(categories, products, i, p);
    }
  }

  // ---------------------------------------------------------------------------
  // Order construction

  /** The order row `submitOrder` inserts first; the store fills in the status and the timestamps. */
  datatype OrderInsert = OrderInsert(
    id: string,
    restaurantUserId: string,
    tableId: string,
    tableNumber: int,
    total: int,
    paymentMethod: PaymentMethod,
    customerNote: Option<string>)

  /** An order item row: a snapshot of the product's name and price at submission. */
  datatype ItemInsert = ItemInsert(
    orderId: string,
    productId: string,
    productName: string,
    quantity: int,
    price: int)

  /** `customerNote || null`: an empty note is stored as null. */
  function NoteOrNull(note: string): Option<string>
  {
    if note == "" then None else Some(note)
  }

  function OrderRow(
    orderId: string, table: RestaurantTable, cart: seq<Cart.CartItem>,
    paymentMethod: PaymentMethod, note: string): OrderInsert
  {
    OrderInsert(orderId, table.userId, table.id, table.tableNumber,
      Cart.TotalPrice(cart), paymentMethod, NoteOrNull(note))
  }

  /** The `cart.map` that builds the order items. */
  function OrderItems(orderId: string, cart: seq<Cart.CartItem>): seq<ItemInsert>
  {
    seq(|cart|, i requires 0 <= i < |cart| =>
      ItemInsert(orderId, cart[i].product.id, cart[i].product.name, cart[i].quantity, cart[i].product.price))
  }

  /** The total of a list of order items, as the store would compute it from the rows. */
  function ItemsTotal(items: seq<ItemInsert>): int
  {
    if items == [] then 0 else items[0].price * items[0].quantity + ItemsTotal(items[1..])
  }

  /** The number of units a list of order items records. */
  function ItemsCount(items: seq<ItemInsert>): int
  {
    if items == [] then 0 else items[0].quantity + ItemsCount(items[1..])
  }

  /**
   * The items built from a valid cart: one per entry, each for at least one unit, no
   * product twice, and together as many units as the cart's item count.
   */
  lemma {:induction false} OrderItemsFromValidCart(orderId: string, cart: seq<Cart.CartItem>)
    requires Cart.ValidCart(cart)
    ensures var items := OrderItems(orderId, cart);
      && |items| == |cart|
      && (forall i :: 0 <= i < |items| ==> items[i].quantity >= 1)
      && (forall i, j :: 0 <= i < j < |items| ==> items[i].productId != items[j].productId)
      && ItemsCount(items) == Cart.TotalItems(cart)
  {
    if cart != [] {
      assert OrderItems(orderId, cart)[1..] == OrderItems(orderId, cart[1..]);
      assert Cart.ValidCart(cart[1..]);
      OrderItemsFromValidCart(orderId, cart[1..]);
    }
  }

  /** The items' total equals the cart's total price. */
  lemma {:induction false} ItemsTotalIsCartTotal(orderId: string, cart: seq<Cart.CartItem>)
    ensures ItemsTotal(OrderItems(orderId, cart)) == Cart.TotalPrice(cart)
  {
    if cart != [] {
      assert OrderItems(orderId, cart)[1..] == OrderItems(orderId, cart[1..]);
      ItemsTotalIsCartTotal(orderId, cart[1..]);
    }
  }

  /**
   * The order row copies the table's owner, id and number, and its total is the sum of
   * price times quantity over the items written with it.
   */
  lemma OrderRowAgreesWithItems(
    orderId: string, table: RestaurantTable, cart: seq<Cart.CartItem>,
    paymentMethod: PaymentMethod, note: string)
    ensures var order := OrderRow(orderId, table, cart, paymentMethod, note);
      && order.id == orderId
      && order.restaurantUserId == table.userId
      && order.tableId == table.id
      && order.tableNumber == table.tableNumber
      && order.total == ItemsTotal(OrderItems(orderId, cart))
      && order.paymentMethod == paymentMethod
      && (order.customerNote.None? <==> note == "")
      && (note != "" ==> order.customerNote == Some(note))
  {
    ItemsTotalIsCartTotal(orderId, cart);
  }

  // ---------------------------------------------------------------------------
  // Page state

  /** What `submitOrder` wrote, and where it stopped. */
  datatype Submission =
    | Skipped
    | OrderRejected(order: OrderInsert)
    | ItemsRejected(order: OrderInsert, items: seq<ItemInsert>)
    | Placed(order: OrderInsert, items: seq<ItemInsert>)

  /** The menu page's state: the table the QR token resolved to, the cart and the flags. */
  class MenuSession {
    var table: Option<RestaurantTable>
    var cart: seq<Cart.CartItem>
    var showCart: bool
    var paymentMethod: PaymentMethod
    var customerNote: string
    var submitting: bool
    var orderSent: bool

    ghost predicate Valid()
      reads this
    {
      Cart.ValidCart(cart)
    }

    /** The page once the menu has loaded for `table` (None: the token matched no table). */
    constructor (table: Option<RestaurantTable>)
      ensures Valid()
      ensures this.table == table && cart == [] && !showCart && paymentMethod == Cash
      ensures customerNote == "" && !submitting && !orderSent
    {
      this.table := table;
      cart := [];
      showCart := false;
      paymentMethod := Cash;
      customerNote := "";
      submitting := false;
      orderSent := false;
    }

    method AddToCart(p: Product)
      requires Valid()
      modifies this`cart
      ensures Valid() && cart == Cart.AddToCart(old(cart), p)
    {
      Cart.AddToCartKeepsValid(cart, p);
      cart := Cart.AddToCart(cart, p);
    }

    method UpdateQuantity(productId: string, delta: int)
      requires Valid()
      modifies this`cart
      ensures Valid() && cart == Cart.UpdateQuantity(old(cart), productId, delta)
    {
      Cart.UpdateQuantityKeepsValid(cart, productId, delta);
      cart := Cart.UpdateQuantity(cart, productId, delta);
    }

    /**
     * `submitOrder`, with the outcomes of its two writes as inputs. Without a table or
     * with an empty cart nothing happens. Otherwise the order row is written, then the
     * items; a failed write stops there, keeps the cart and clears `submitting`; when
     * both succeed the cart is emptied, the cart overlay closed and `orderSent` set.
     */
    method SubmitOrder(orderId: string, orderWriteOk: bool, itemsWriteOk: bool) returns (outcome: Submission)
      requires Valid()
      modifies this`cart, this`showCart, this`submitting, this`orderSent
      ensures Valid()
      ensures table.None? || old(cart) == [] ==>
        && outcome == Skipped
        && cart == old(cart) && showCart == old(showCart)
        && submitting == old(submitting) && orderSent == old(orderSent)
      ensures table.Some? && old(cart) != [] ==>
        var order := OrderRow(orderId, table.value, old(cart), paymentMethod, customerNote);
        var items := OrderItems(orderId, old(cart));
        && outcome == (if !orderWriteOk then OrderRejected(order)
                       else if !itemsWriteOk then ItemsRejected(order, items)
                       else Placed(order, items))
        && !submitting
        && (outcome.Placed? ==> cart == [] && orderSent && !showCart)
        && (!outcome.Placed? ==> cart == old(cart) && orderSent == old(orderSent) && showCart == old(showCart))
      ensures outcome.Placed? ==> outcome.order.total == ItemsTotal(outcome.items)
    {
      if table.None? || |cart| == 0 {
        return Skipped;
      }
      submitting := true;
      var order := OrderRow(orderId, table.value, cart, paymentMethod, customerNote);
      if !orderWriteOk {
        submitting := false;
        return OrderRejected(order);
      }
      var items := OrderItems(orderId, cart);
      if !itemsWriteOk {
        submitting := false;
        return ItemsRejected(order, items);
      }
      ItemsTotalIsCartTotal(orderId, cart);
      orderSent := true;
      cart := [];
      showCart := false;
      submitting := false;
      outcome := Placed(order, items);
    }

    /** The "order again" button on the confirmation screen. */
    method OrderAgain()
      requires Valid()
      modifies this`orderSent
      ensures Valid() && !orderSent
    {
      orderSent := false;
    }
  }
}
