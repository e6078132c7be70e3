/** The rows of the ERP database tables the services read and write, and the
    in-memory database that holds them. */
module Schema {
  import opened Wrappers

  /** A row of `Orders` (the primary key `id` is the key of the table map). */
  datatype Order = Order(
    orderNumber: int,
    orderDate: string,
    orderSource: int,
    objectId: string,
    isCheckout: bool,
    numberOfItems: int,
    establishSource: int,
    isBorrowed: bool,
    isOffset: bool,
    remark: string,
    cashierRemark: string,
    status: int,
    waitingOrderDate: Option<string>,
    waitingOrderNumber: Option<string>,
    alreadyOrderDate: Option<string>,
    alreadyOrderNumber: Option<string>)

  /** The item columns of `Orders_Items`, as returned by `get_order_items`. */
  datatype Item = Item(
    itemNumber: Option<int>,
    isbn: Option<string>,
    productName: Option<string>,
    quantity: Option<int>,
    unit: Option<string>,
    batchPrice: Option<real>,
    singlePrice: Option<real>,
    pricing: Option<real>,
    priceAmount: Option<int>,
    remark: Option<string>)

  /** A row of `Orders_Items`: an item filed under an order. */
  datatype ItemRow = ItemRow(orderId: int, orderNumber: int, item: Item)

  /** A row of `Orders_Reference`: a directed edge from an order to the order
      (or sub-bill) it was derived from. */
  datatype Reference = Reference(
    id: int, orderId: int, orderReferenceId: Option<int>, subBillReferenceId: Option<int>)

  /** A row of `Orders_Price`, keyed by `Order_id`. */
  datatype PriceRow = PriceRow(
    orderNumber: int, totalPriceNoneTax: int, tax: int, discount: int, totalPriceIncludeTax: int)

  /** A row of `Product`, keyed by ISBN; stock counters may be NULL. */
  datatype Product = Product(
    productName: Option<string>,
    supplierId: Option<string>,
    inStock: Option<int>,
    safetyStock: Option<int>,
    waitingIntoInStock: Option<int>,
    waitingShipmentQuantity: Option<int>)

  /** A customer as written by `_create_customer` into `Customer` and its
      phone, address and receive-info rows. */
  datatype Customer = Customer(
    objectName: string, objectNickName: string, personInCharge: string, contactPerson: string,
    email: string, memberId: string, invoiceTitle: string, taxIdNumber: string,
    orderTax: int, receivableDiscount: real, printPricing: int, saleModel: int, saleDiscount: real,
    remark: string, storeCode: string,
    telephone1: string, telephone2: string, cellphone: string, fax: string,
    companyAddress: string, deliveryAddress: string, invoiceAddress: string,
    receivableDay: int, isCheckoutByMonth: int)

  /** A row of `Orders_ProjectInfo`, keyed by `Order_id`. */
  datatype ProjectInfo = ProjectInfo(
    orderNumber: int, code: string, name: string, quantity: string, unit: string,
    priceAmount: string, totalPriceNoneTax: string, tax: string, totalPriceIncludeTax: string,
    differentPrice: string)

  /** A row of `Orders_ShoppingInfo`, keyed by `Order_id`. */
  datatype ShoppingInfo = ShoppingInfo(
    orderNumber: int, purchaserName: string, purchaserTelephone: string, purchaserCellphone: string,
    purchaserAddress: string, recipientName: string, recipientTelephone: string,
    recipientCellphone: string, recipientAddress: string)

  /** `EstablishSource` of documents the system writes by itself. */
  const SystemEstablished: int := 0

  /** `EstablishSource` of documents entered by hand. */
  const ManualEstablished: int := 1

  /** A row of `Orders_Picture`. */
  datatype PictureRow = PictureRow(orderId: int, itemNumber: int, picture: string, source: string)

  /** A snapshot of every table of the order domain. `nextOrderId` and
      `nextReferenceId` are the identity values the next inserts receive. */
  datatype Tables = Tables(
    orders: map<int, Order>,
    nextOrderId: int,
    items: seq<ItemRow>,
    references: seq<Reference>,
    nextReferenceId: int,
    prices: map<int, PriceRow>,
    products: map<string, Product>,
    suppliers: map<string, string>,
    customers: map<string, Customer>,
    projectInfos: map<int, ProjectInfo>,
    shoppingInfos: map<int, ShoppingInfo>,
    pictures: seq<PictureRow>)

  /** Identity columns only hand out fresh values: no row mentions an order id
      or reference id that has not been issued yet. */
  ghost predicate FreshIds(t: Tables) {
    && (forall id :: id in t.orders ==> id < t.nextOrderId)
    && (forall id :: id in t.prices ==> id < t.nextOrderId)
    && (forall i :: 0 <= i < |t.items| ==> t.items[i].orderId < t.nextOrderId)
    && (forall i :: 0 <= i < |t.references| ==> t.references[i].id < t.nextReferenceId)
    && (forall i :: 0 <= i < |t.references| ==> t.references[i].orderId < t.nextOrderId)
  }

  /** `s` is `t` with rows added under new ids only: orders and price rows of
      `t` are untouched, and item rows and edges are appended, each filed
      under an order id `t` had not issued. */
  ghost predicate Extends(t: Tables, s: Tables) {
    && FreshIds(s)
    && t.nextOrderId <= s.nextOrderId && t.nextReferenceId <= s.nextReferenceId
    && (forall id :: id in t.orders ==> id in s.orders && s.orders[id] == t.orders[id])
    && (forall id :: id in t.prices ==> id in s.prices && s.prices[id] == t.prices[id])
    && |t.items| <= |s.items| && s.items[..|t.items|] == t.items
    && (forall i :: |t.items| <= i < |s.items| ==> s.items[i].orderId >= t.nextOrderId)
    && |t.references| <= |s.references| && s.references[..|t.references|] == t.references
    && (forall i :: |t.references| <= i < |s.references| ==> s.references[i].orderId >= t.nextOrderId)
  }

  lemma ExtendsReflexive(t: Tables)
    requires FreshIds(t)
    ensures Extends(t, t)
  {
    assert t.items[..|t.items|] == t.items;
    assert t.references[..|t.references|] == t.references;
  }

  lemma ExtendsTransitive(a: Tables, b: Tables, c: Tables)
    requires Extends(a, b) && Extends(b, c)
    ensures Extends(a, c)
  {
    assert c.items[..|a.items|] == c.items[..|b.items|][..|a.items|];
    assert c.references[..|a.references|] == c.references[..|b.references|][..|a.references|];
    forall i | |a.items| <= i < |c.items| ensures c.items[i].orderId >= a.nextOrderId {
      if i < |b.items| {
        assert c.items[i] == c.items[..|b.items|][i];
      }
    }
    forall i | |a.references| <= i < |c.references| ensures c.references[i].orderId >= a.nextOrderId {
      if i < |b.references| {
        assert c.references[i] == c.references[..|b.references|][i];
      }
    }
  }

  /** One new order under the next id, with its price row, item rows and
      edges appended under that id, extends the tables. */
  lemma AppendExtends(t: Tables, s: Tables, rows: seq<ItemRow>, edges: seq<Reference>)
    requires FreshIds(t)
    requires s.nextOrderId == t.nextOrderId + 1 && s.nextReferenceId == t.nextReferenceId + |edges|
    requires t.nextOrderId in s.orders && s.orders == t.orders[t.nextOrderId := s.orders[t.nextOrderId]]
    requires t.nextOrderId in s.prices && s.prices == t.prices[t.nextOrderId := s.prices[t.nextOrderId]]
    requires s.items == t.items + rows && forall i :: 0 <= i < |rows| ==> rows[i].orderId == t.nextOrderId
    requires s.references == t.references + edges
    requires forall i :: 0 <= i < |edges| ==> edges[i].orderId == t.nextOrderId && edges[i].id == t.nextReferenceId + i
    ensures Extends(t, s)
  {
    var id := t.nextOrderId;
    assert s.items[..|t.items|] == t.items;
    forall i | 0 <= i < |s.items| ensures s.items[i].orderId < id + 1 && (i >= |t.items| ==> s.items[i].orderId >= id) {
      if i >= |t.items| {
        assert s.items[i] == rows[i - |t.items|];
      } else {
        assert s.items[i] == t.items[i];
      }
    }
    assert s.references[..|t.references|] == t.references;
    forall i | 0 <= i < |s.references|
      ensures s.references[i].id < s.nextReferenceId && s.references[i].orderId < s.nextOrderId
      ensures i >= |t.references| ==> s.references[i].orderId >= id
    {
      if i < |t.references| {
        assert s.references[i] == t.references[i];
      } else {
        assert s.references[i] == edges[i - |t.references|];
      }
    }
  }

  /** The outcome of an operation that may stop with an error after some of
      its writes: the tables afterwards and the result. */
  datatype Step<T, E> = Step(tables: Tables, result: Result<T, E>)

  /** The database connection of the order services: one field per table. */
  class Database {
    var orders: map<int, Order>
    var nextOrderId: int
    var items: seq<ItemRow>
    var references: seq<Reference>
    var nextReferenceId: int
    var prices: map<int, PriceRow>
    var products: map<string, Product>
    var suppliers: map<string, string>
    var customers: map<string, Customer>
    var projectInfos: map<int, ProjectInfo>
    var shoppingInfos: map<int, ShoppingInfo>
    var pictures: seq<PictureRow>

    function State(): (t: Tables)
      reads this
      ensures t.orders == orders && t.items == items && t.references == references
      ensures t.products == products && t.nextOrderId == nextOrderId
    {
      Tables(orders, nextOrderId, items, references, nextReferenceId, prices, products,
        suppliers, customers, projectInfos, shoppingInfos, pictures)
    }

    constructor (initial: Tables)
      ensures State() == initial
    {
      orders, nextOrderId := initial.orders, initial.nextOrderId;
      items := initial.items;
      references, nextReferenceId := initial.references, initial.nextReferenceId;
      prices, products, suppliers := initial.prices, initial.products, initial.suppliers;
      customers, projectInfos, shoppingInfos := initial.customers, initial.projectInfos, initial.shoppingInfos;
      pictures := initial.pictures;
    }
  }
}
