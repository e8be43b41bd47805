/**
 * The owner's dashboard: the order list and its status buttons, the realtime
 * feed of new orders, table generation, and the category and product forms.
 */
module Dashboard {
  import opened Wrappers
  import opened Catalog
  import opened OrderStatus
  import opened Text

  /** An order row as the dashboard holds it. */
  datatype Order = Order(
    id: string,
    tableNumber: Option<int>,
    status: Status,
    paymentMethod: PaymentMethod,
    total: int,
    customerNote: Option<string>,
    createdAt: string)

  // ---------------------------------------------------------------------------
  // Order list

  /** The local rewrite after a successful status update: `prev.map(o => o.id === id ? {...o, status} : o)`. */
  function WithStatus(orders: seq<Order>, id: string, status: Status): seq<Order>
  {
    seq(|orders|, i requires 0 <= i < |orders| =>
      if orders[i].id == id then orders[i].(status := status) else orders[i])
  }

  /**
   * The rewrite sets the status of the orders with the given id and changes nothing
   * else: not the length, not the order, not any other field, not any other order.
   */
  lemma WithStatusChangesOnlyStatus(orders: seq<Order>, id: string, status: Status)
    ensures var r := WithStatus(orders, id, status);
      && |r| == |orders|
      && forall i :: 0 <= i < |orders| ==>
           && r[i].(status := orders[i].status) == orders[i]
           && r[i].status == if orders[i].id == id then status else orders[i].status
  {
  }

  /** Applying the same update twice gives the list of applying it once. */
  lemma {:induction false} WithStatusIdempotent(orders: seq<Order>, id: string, status: Status)
    ensures WithStatus(WithStatus(orders, id, status), id, status) == WithStatus(orders, id, status)
  {
    var once := WithStatus(orders, id, status);
    var twice := WithStatus(once, id, status);
    assert |twice| == |once|;
    forall i | 0 <= i < |once|
      ensures twice[i] == once[i]
    {
      assert once[i].id == orders[i].id;
    }
  }

  // ---------------------------------------------------------------------------
  // Table generation

  /** A table row as `generateTables` inserts it; the store issues the id and the QR token. */
  datatype TableInsert = TableInsert(userId: string, tableNumber: int)

  /** `Array.from({ length: count }, (_, i) => ...)`: rows numbered after the current count. */
  function TableRows(userId: string, tableCount: int, count: nat): seq<TableInsert>
  {
    seq(count, i => TableInsert(userId, tableCount + i + 1))
  }

  /**
   * The generated rows all belong to the user and carry the numbers
   * `tableCount + 1 .. tableCount + count`, consecutive and distinct.
   */
  lemma TableRowsNumbering(userId: string, tableCount: int, count: nat)
    ensures var rows := TableRows(userId, tableCount, count);
      && |rows| == count
      && (forall i :: 0 <= i < count ==> rows[i].userId == userId && rows[i].tableNumber == tableCount + i + 1)
      && (forall i :: 0 <= i < count - 1 ==> rows[i + 1].tableNumber == rows[i].tableNumber + 1)
      && (forall i, j :: 0 <= i < j < count ==> rows[i].tableNumber != rows[j].tableNumber)
      && var numbers := set i | 0 <= i < count :: rows[i].tableNumber;
         forall n :: n in numbers <==> tableCount < n <= tableCount + count
  {
    var rows := TableRows(userId, tableCount, count);
    var numbers := set i | 0 <= i < count :: rows[i].tableNumber;
    forall n | tableCount < n <= tableCount + count
      ensures n in numbers
    {
      assert rows[n - tableCount - 1].tableNumber == n;
    }
  }

  /**
   * The rows `generateTables` sends for the parsed count (None when the input does not
   * parse as a number): nothing for a missing, zero or negative count.
   */
  function TablesToGenerate(parsedCount: Option<int>, userId: string, tableCount: int): (rows: seq<TableInsert>)
    ensures rows == [] <==> parsedCount.None? || parsedCount.value < 1
    ensures rows != [] ==> |rows| == parsedCount.value
  {
    if parsedCount.None? || parsedCount.value < 1 then []
    else TableRows(userId, tableCount, parsedCount.value)
  }

  // ---------------------------------------------------------------------------
  // Category and product forms

  datatype CategoryInsert = CategoryInsert(name: string, userId: string, sortOrder: int)

  /** The row `addCategory` sends: none for a blank name; otherwise the name as typed, last in order. */
  function NewCategoryRow(name: string, userId: string, categories: seq<Category>): (r: Option<CategoryInsert>)
    ensures r.None? <==> IsBlank(name)
    ensures r.Some? ==> r.value.name == name && r.value.userId == userId && r.value.sortOrder == |categories|
  {
    TrimEmptyIffBlank(name);
    if Trim(name) == "" then None else Some(CategoryInsert(name, userId, |categories|))
  }

  /** The product form's text fields. */
  datatype ProductForm = ProductForm(name: string, description: string, price: string, categoryId: string)

  const EmptyProductForm := ProductForm("", "", "", "")

  datatype ProductInsert = ProductInsert(
    name: string,
    description: string,
    price: int,
    categoryId: Option<string>,
    userId: string,
    sortOrder: int)

  /**
   * The row `addProduct` sends, with the form's price already parsed: none for a blank
   * name or an empty price field; otherwise an empty category choice becomes null and
   * the product goes last in order.
   */
  function NewProductRow(form: ProductForm, parsedPrice: int, userId: string, products: seq<Product>): (r: Option<ProductInsert>)
    ensures r.None? <==> IsBlank(form.name) || form.price == ""
    ensures r.Some? ==>
      && r.value.name == form.name && r.value.description == form.description
      && r.value.price == parsedPrice && r.value.userId == userId
      && (r.value.categoryId.None? <==> form.categoryId == "")
      && (r.value.categoryId.Some? ==> r.value.categoryId.value == form.categoryId)
      && r.value.sortOrder == |products|
  {
    TrimEmptyIffBlank(form.name);
    if Trim(form.name) == "" || form.price == "" then None
    else Some(ProductInsert(form.name, form.description, parsedPrice,
      if form.categoryId == "" then None else Some(form.categoryId), userId, |products|))
  }

  // ---------------------------------------------------------------------------
  // Dashboard state

  /**
   * The dashboard's state for the signed-in owner `userId`. Every handler takes the
   * outcome of its write as an input; the re-fetches that follow a write are not modelled,
   * so the lists change here only through the order handlers.
   */
  class DashboardView {
    const userId: string
    var orders: seq<Order>
    var categories: seq<Category>
    var products: seq<Product>
    var tableCount: nat
    var newCategoryName: string
    var newProduct: ProductForm
    var newTableCount: string

    constructor (userId: string)
      ensures this.userId == userId && orders == [] && categories == [] && products == []
      ensures tableCount == 0 && newCategoryName == "" && newProduct == EmptyProductForm && newTableCount == ""
    {
      this.userId := userId;
      orders := [];
      categories := [];
      products := [];
      tableCount := 0;
      newCategoryName := "";
      newProduct := EmptyProductForm;
      newTableCount := "";
    }

    /** A realtime insert event: the new order goes in front of the list. */
    method OrderInserted(order: Order)
      modifies this`orders
      ensures orders == [order] + old(orders)
      ensures orders[0] == order && orders[1..] == old(orders)
    {
      orders := [order] + orders;
    }

    /** `updateOrderStatus`: on success rewrite the orders with that id; on failure change nothing. */
    method UpdateOrderStatus(orderId: string, status: Status, writeOk: bool)
      modifies this`orders
      ensures orders == if writeOk then WithStatus(old(orders), orderId, status) else old(orders)
    {
      if !writeOk {
        return;
      }
      orders := WithStatus(orders, orderId, status);
    }

    /**
     * A click on button `choice` of the card of order `i`. The card's order moves along an
     * offered transition; every other order keeps its status unless it shares that id.
     */
    method PressStatusButton(i: nat, choice: nat, writeOk: bool)
      requires i < |orders| && choice < |Actions(orders[i].status)|
      modifies this`orders
      ensures orders == if writeOk
        then WithStatus(old(orders), old(orders)[i].id, Actions(old(orders)[i].status)[choice])
        else old(orders)
      ensures |orders| == |old(orders)|
      ensures orders[i].(status := old(orders)[i].status) == old(orders)[i]
      ensures writeOk ==> Offered(old(orders)[i].status, orders[i].status)
      ensures !writeOk ==> orders == old(orders)
      ensures forall j :: 0 <= j < |orders| && old(orders)[j].id != old(orders)[i].id ==> orders[j] == old(orders)[j]
    {
      UpdateOrderStatus(orders[i].id, Actions(orders[i].status)[choice], writeOk);
    }

    /** `addCategory`, returning the row it sent, if any; a successful write clears the field. */
    method AddCategory(writeOk: bool) returns (sent: Option<CategoryInsert>)
      modifies this`newCategoryName
      ensures sent == NewCategoryRow(old(newCategoryName), userId, categories)
      ensures newCategoryName == if sent.Some? && writeOk then "" else old(newCategoryName)
    {
      sent := NewCategoryRow(newCategoryName, userId, categories);
      if sent.None? || !writeOk {
        return;
      }
      newCategoryName := "";
    }

    /** `addProduct`, with the parsed price as input; a successful write clears the form. */
    method AddProduct(parsedPrice: int, writeOk: bool) returns (sent: Option<ProductInsert>)
      modifies this`newProduct
      ensures sent == NewProductRow(old(newProduct), parsedPrice, userId, products)
      ensures newProduct == if sent.Some? && writeOk then EmptyProductForm else old(newProduct)
    {
      sent := NewProductRow(newProduct, parsedPrice, userId, products);
      if sent.None? || !writeOk {
        return;
      }
      newProduct := EmptyProductForm;
    }

    /** `generateTables`, with the parsed count as input; a successful write clears the field. */
    method GenerateTables(parsedCount: Option<int>, writeOk: bool) returns (sent: seq<TableInsert>)
      modifies this`newTableCount
      ensures sent == TablesToGenerate(parsedCount, userId, tableCount)
      ensures newTableCount == if sent != [] && writeOk then "" else old(newTableCount)
    {
      sent := TablesToGenerate(parsedCount, userId, tableCount);
      if sent == [] || !writeOk {
        return;
      }
      newTableCount := "";
    }
  }
}
