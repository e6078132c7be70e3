/** The document chain: a source order is copied into its successor document,
    the source is stamped with the successor's date and number, and stock
    counters move with the goods. */
module OrderConversionService {
  import opened Wrappers
  import opened Decimal
  import opened Text
  import opened Schema
  import opened Numbering
  import opened StockService
  import opened OrderService
  import opened PurchaseOrderService

  /** Why a conversion stops. */
  datatype ConversionError =
    | SourceNotFound
    | WrongSourceType
    | NoItems
    | Numbering(cause: NumberingError)

  // ------------------------------------------------------ quantity overrides

  /** An entry of the `items` argument of a conversion. */
  datatype OverrideItem = OverrideItem(itemNumber: Option<int>, isbn: Option<string>, quantity: Option<int>)

  /** A key of `items_map`: an ISBN, or an item number (a Python `str` and an
      `int` key never collide). */
  datatype OverrideKey = IsbnKey(isbn: string) | NumberKey(number: int)

  /** A non-zero item number (Python truthiness). */
  predicate TruthyNumber(n: Option<int>) {
    n.Some? && n.value != 0
  }

  /** `item.get("isbn") or item.get("item_number")`, when that is truthy. */
  function OverrideKeyOf(o: OverrideItem): (r: Option<OverrideKey>)
    ensures r.Some? <==> Truthy(o.isbn) || TruthyNumber(o.itemNumber)
    ensures r.Some? && r.value.IsbnKey? <==> Truthy(o.isbn)
  {
    if Truthy(o.isbn) then Some(IsbnKey(o.isbn.value))
    else if TruthyNumber(o.itemNumber) then Some(NumberKey(o.itemNumber.value))
    else None
  }

  /** `items_map`: each keyed entry maps its key to its quantity; a later entry
      with the same key wins. */
  function Overrides(items: seq<OverrideItem>): map<OverrideKey, Option<int>>
    decreases |items|
  {
    if items == [] then map[]
    else
      var m := Overrides(items[..|items| - 1]);
      var last := items[|items| - 1];
      match OverrideKeyOf(last)
      case None => m
      case Some(k) => m[k := last.quantity]
  }

  /** A key is in `items_map` exactly when some entry carries it. */
  lemma {:induction false} OverridesDomain(items: seq<OverrideItem>, k: OverrideKey)
    ensures k in Overrides(items) <==> exists i :: 0 <= i < |items| && OverrideKeyOf(items[i]) == Some(k)
    decreases |items|
  {
    if items != [] {
      var init := items[..|items| - 1];
      OverridesDomain(init, k);
      if exists i :: 0 <= i < |init| && OverrideKeyOf(init[i]) == Some(k) {
        var i :| 0 <= i < |init| && OverrideKeyOf(init[i]) == Some(k);
        assert items[i] == init[i];
      }
      if exists i :: 0 <= i < |items| && OverrideKeyOf(items[i]) == Some(k) {
        var i :| 0 <= i < |items| && OverrideKeyOf(items[i]) == Some(k);
        if i < |init| {
          assert init[i] == items[i];
        }
      }
    }
  }

  /** The quantity mapped to a key is that of the last entry carrying it. */
  lemma {:induction false} OverridesLast(items: seq<OverrideItem>, k: OverrideKey, i: nat)
    requires i < |items| && OverrideKeyOf(items[i]) == Some(k)
    requires forall j :: i < j < |items| ==> OverrideKeyOf(items[j]) != Some(k)
    ensures k in Overrides(items) && Overrides(items)[k] == items[i].quantity
    decreases |items|
  {
    if i < |items| - 1 {
      var init := items[..|items| - 1];
      assert init[i] == items[i];
      assert forall j :: i < j < |init| ==> init[j] == items[j];
      OverridesLast(init, k, i);
    }
  }

  /** The loop that fills `items_map`. */
  method BuildOverrides(items: seq<OverrideItem>) returns (m: map<OverrideKey, Option<int>>)
    ensures m == Overrides(items)
  {
    m := map[];
    for i := 0 to |items|
      invariant m == Overrides(items[..i])
    {
      assert items[..i + 1][..i] == items[..i];
      var item := items[i];
      var key: Option<OverrideKey> := None;
      if item.isbn.Some? && item.isbn.value != "" {
        key := Some(IsbnKey(item.isbn.value));
      } else if item.itemNumber.Some? && item.itemNumber.value != 0 {
        key := Some(NumberKey(item.itemNumber.value));
      }
      if key.Some? {
        m := m[key.value := item.quantity];
      }
    }
    assert items[..|items|] == items;
  }

  // ------------------------------------------------------------ the new order

  /** The quantity a copied item gets: the override of its ISBN, else the
      override of its item number, else its own quantity. */
  function CopiedQuantity(item: Item, m: map<OverrideKey, Option<int>>): Option<int> {
    if Truthy(item.isbn) && IsbnKey(item.isbn.value) in m then m[IsbnKey(item.isbn.value)]
    else if TruthyNumber(item.itemNumber) && NumberKey(item.itemNumber.value) in m then m[NumberKey(item.itemNumber.value)]
    else item.quantity
  }

  /** The row values `_create_new_order` inserts for one source item. */
  function CopiedItem(item: Item, m: map<OverrideKey, Option<int>>): Item {
    Item(item.itemNumber, item.isbn, item.productName, CopiedQuantity(item, m), Some(OrEmpty(item.unit)),
      Some(item.batchPrice.GetOr(0.0)), Some(item.singlePrice.GetOr(0.0)), Some(item.pricing.GetOr(0.0)),
      Some(item.priceAmount.GetOr(0)), Some(OrEmpty(item.remark)))
  }

  function CopiedRows(id: int, number: int, items: seq<Item>, m: map<OverrideKey, Option<int>>): (r: seq<ItemRow>)
    ensures |r| == |items|
    ensures forall i :: 0 <= i < |items| ==> r[i] == ItemRow(id, number, CopiedItem(items[i], m))
  {
    seq(|items|, i requires 0 <= i < |items| => ItemRow(id, number, CopiedItem(items[i], m)))
  }

  function ConversionRemark(sourceId: int): string {
    "由訂單 #" + FromInt(sourceId) + " 轉換產生"
  }

  /** The `Orders` row of the new document. */
  function ConvertedHeader(number: int, day: Date, target: int, source: Order, count: int, sourceId: int): Order {
    Order(number, SlashDate(day), target, source.objectId, false, count, SystemEstablished,
      false, false, ConversionRemark(sourceId), "", 0, None, None, None, None)
  }

  /** The source's price row under the new number, or zeros when it has none. */
  function CopiedPrice(number: int, prices: map<int, PriceRow>, sourceId: int): PriceRow {
    if sourceId in prices then
      var p := prices[sourceId];
      PriceRow(number, p.totalPriceNoneTax, p.tax, p.discount, p.totalPriceIncludeTax)
    else PriceRow(number, 0, 0, 0, 0)
  }

  /** What `_create_new_order` returns: the new id, its number and its date. */
  datatype NewOrder = NewOrder(id: int, number: string, date: string)

  /** The header and the price row of the new document. */
  function WithNewHeader(t: Tables, id: int, header: Order, price: PriceRow): Tables {
    t.(orders := t.orders[id := header], nextOrderId := id + 1, prices := t.prices[id := price])
  }

  /** The writes of `_create_new_order` once the new number is known. */
  function WriteNewOrder(t: Tables, sourceId: int, target: int, source: Order, items: seq<Item>,
                         m: map<OverrideKey, Option<int>>, day: Date, number: int): (r: Tables)
  {
    var id := t.nextOrderId;
    var h := WithNewHeader(t, id, ConvertedHeader(number, day, target, source, |items|, sourceId), CopiedPrice(number, t.prices, sourceId));
    AddReference(h.(items := h.items + CopiedRows(id, number, items, m)), id, Some(sourceId), None)
  }

  /** `_create_new_order(source_order_id, target_order_source, items)` on the day `day`. */
  function NewOrderFor(t: Tables, sourceId: int, target: int, overrides: seq<OverrideItem>, day: Date): (r: Step<NewOrder, ConversionError>)
    ensures r.result.Err? ==> r.tables == t
    ensures r.result.Ok? ==> r.result.value.id == t.nextOrderId && r.result.value.date == SlashDate(day)
    ensures r.tables.products == t.products
  {
    match GetOrderById(t.orders, sourceId)
    case None => Step(t, Err(SourceNotFound))
    case Some(source) =>
      var items := GetOrderItems(t.items, sourceId);
      if items == [] then Step(t, Err(NoItems))
      else
        match NextOrderNumber(t.orders, target, day)
        case Err(e) => Step(t, Err(Numbering(e)))
        case Ok(number) =>
          Step(WriteNewOrder(t, sourceId, target, source, items, Overrides(overrides), day, number),
            Ok(NewOrder(t.nextOrderId, FromInt(number), SlashDate(day))))
  }

  /** The item loop of `_create_new_order`. */
  method CopyItems(db: Database, id: int, number: int, items: seq<Item>, m: map<OverrideKey, Option<int>>)
    modifies db`items
    ensures db.items == old(db.items) + CopiedRows(id, number, items, m)
    ensures db.State() == old(db.State()).(items := db.items)
  {
    for i := 0 to |items|
      invariant db.items == old(db.items) + CopiedRows(id, number, items[..i], m)
    {
      var item := items[i];
      assert items[..i + 1][..i] == items[..i];
      assert CopiedRows(id, number, items[..i + 1], m) == CopiedRows(id, number, items[..i], m) + [ItemRow(id, number, CopiedItem(item, m))];
      var quantity := item.quantity;
      if item.isbn.Some? && item.isbn.value != "" && IsbnKey(item.isbn.value) in m {
        quantity := m[IsbnKey(item.isbn.value)];
      } else if item.itemNumber.Some? && item.itemNumber.value != 0 && NumberKey(item.itemNumber.value) in m {
        quantity := m[NumberKey(item.itemNumber.value)];
      }
      var row := Item(item.itemNumber, item.isbn, item.productName, quantity, Some(OrEmpty(item.unit)),
        Some(item.batchPrice.GetOr(0.0)), Some(item.singlePrice.GetOr(0.0)), Some(item.pricing.GetOr(0.0)),
        Some(item.priceAmount.GetOr(0)), Some(OrEmpty(item.remark)));
      db.items := db.items + [ItemRow(id, number, row)];
    }
    assert items[..|items|] == items;
  }

  /** The `Orders` and `Orders_Price` inserts; the new id is `SCOPE_IDENTITY()`. */
  method InsertHeader(db: Database, header: Order, price: PriceRow) returns (id: int)
    modifies db`orders, db`nextOrderId, db`prices
    ensures id == old(db.nextOrderId)
    ensures db.State() == WithNewHeader(old(db.State()), id, header, price)
  {
    id := db.nextOrderId;
    db.orders := db.orders[id := header];
    db.nextOrderId := id + 1;
    db.prices := db.prices[id := price];
  }

  /** `_create_new_order`. */
  method CreateNewOrder(db: Database, sourceId: int, target: int, overrides: seq<OverrideItem>, day: Date)
    returns (r: Result<NewOrder, ConversionError>)
    modifies db
    ensures db.State() == NewOrderFor(old(db.State()), sourceId, target, overrides, day).tables
    ensures r == NewOrderFor(old(db.State()), sourceId, target, overrides, day).result
  {
    ghost var t := db.State();
    var source := GetOrderById(db.orders, sourceId);
    if source.None? {
      return Err(SourceNotFound);
    }
    var items := GetOrderItems(db.items, sourceId);
    if items == [] {
      return Err(NoItems);
    }
    var number := NextOrderNumber(db.orders, target, day);
    if number.Err? {
      return Err(Numbering(number.error));
    }
    var n := number.value;
    var m := BuildOverrides(overrides);
    var price := PriceRow(n, 0, 0, 0, 0);
    if sourceId in db.prices {
      var p := db.prices[sourceId];
      price := PriceRow(n, p.totalPriceNoneTax, p.tax, p.discount, p.totalPriceIncludeTax);
    }
    assert price == CopiedPrice(n, t.prices, sourceId);
    var header := ConvertedHeader(n, day, target, source.value, |items|, sourceId);
    var id := InsertHeader(db, header, price);
    ghost var h := WithNewHeader(t, id, header, price);
    CopyItems(db, id, n, items, m);
    assert db.State() == h.(items := h.items + CopiedRows(id, n, items, m));
    var _ := CreateOrderReference(db, id, Some(sourceId), None);
    r := Ok(NewOrder(id, FromInt(n), SlashDate(day)));
    NewOrderForOk(t, sourceId, target, overrides, day);
  }

  /** The successful path of `_create_new_order`. */
  lemma NewOrderForOk(t: Tables, sourceId: int, target: int, overrides: seq<OverrideItem>, day: Date)
    requires sourceId in t.orders && GetOrderItems(t.items, sourceId) != []
    requires NextOrderNumber(t.orders, target, day).Ok?
    ensures var number := NextOrderNumber(t.orders, target, day).value;
      NewOrderFor(t, sourceId, target, overrides, day)
        == Step(WriteNewOrder(t, sourceId, target, t.orders[sourceId], GetOrderItems(t.items, sourceId), Overrides(overrides), day, number),
             Ok(NewOrder(t.nextOrderId, FromInt(number), SlashDate(day))))
  {
  }

  /** The writes of the new document only add rows under its own id: one
      order, one price row, its items and one edge. */
  lemma WriteNewOrderExtends(t: Tables, sourceId: int, target: int, source: Order, items: seq<Item>,
                             m: map<OverrideKey, Option<int>>, day: Date, number: int)
    requires FreshIds(t)
    ensures var s := WriteNewOrder(t, sourceId, target, source, items, m, day, number);
      && Extends(t, s) && s.nextOrderId == t.nextOrderId + 1
      && s.orders == t.orders[t.nextOrderId := ConvertedHeader(number, day, target, source, |items|, sourceId)]
      && s.products == t.products
  {
    var header := ConvertedHeader(number, day, target, source, |items|, sourceId);
    AddOrderExtends(t, header, CopiedPrice(number, t.prices, sourceId), CopiedRows(t.nextOrderId, number, items, m), Some(sourceId));
  }

  /** The new document only adds rows under its own id. */
  lemma NewOrderExtends(t: Tables, sourceId: int, target: int, overrides: seq<OverrideItem>, day: Date)
    requires FreshIds(t) && NewOrderFor(t, sourceId, target, overrides, day).result.Ok?
    ensures var s := NewOrderFor(t, sourceId, target, overrides, day).tables;
      Extends(t, s) && s.nextOrderId == t.nextOrderId + 1 && s.products == t.products
  {
    NewOrderForOk(t, sourceId, target, overrides, day);
    WriteNewOrderExtends(t, sourceId, target, t.orders[sourceId], GetOrderItems(t.items, sourceId), Overrides(overrides),
      day, NextOrderNumber(t.orders, target, day).value);
  }

  /** The header and price row of the new document: the target type, the
      source's customer or supplier, the generated number, the day's date,
      the source's item count, and the source's price row (or zeros) under
      the new number. */
  lemma NewOrderHeader(t: Tables, sourceId: int, target: int, overrides: seq<OverrideItem>, day: Date)
    requires NewOrderFor(t, sourceId, target, overrides, day).result.Ok?
    ensures var r := NewOrderFor(t, sourceId, target, overrides, day);
      && sourceId in t.orders && NextOrderNumber(t.orders, target, day).Ok?
      && t.nextOrderId in r.tables.orders && t.nextOrderId in r.tables.prices
    ensures var r := NewOrderFor(t, sourceId, target, overrides, day);
      var o := r.tables.orders[t.nextOrderId];
      var src := GetOrderItems(t.items, sourceId);
      && o.orderNumber == NextOrderNumber(t.orders, target, day).value
      && r.result.value.number == FromInt(o.orderNumber)
      && o.orderDate == r.result.value.date
      && o.orderSource == target
      && o.objectId == t.orders[sourceId].objectId
      && o.numberOfItems == |src| && src != []
      && o.remark == ConversionRemark(sourceId)
      && o.establishSource == SystemEstablished
    ensures var r := NewOrderFor(t, sourceId, target, overrides, day);
      var number := NextOrderNumber(t.orders, target, day).value;
      var p := r.tables.prices[t.nextOrderId];
      && (sourceId in t.prices ==> p == t.prices[sourceId].(orderNumber := number))
      && (sourceId !in t.prices ==> p == PriceRow(number, 0, 0, 0, 0))
  {
    NewOrderForOk(t, sourceId, target, overrides, day);
  }

  /** The items of the new document read back as the source's items, in
      item-number order, each copied with its quantity taken from the
      overrides. */
  lemma NewOrderItemsCopied(t: Tables, sourceId: int, target: int, overrides: seq<OverrideItem>, day: Date)
    requires FreshIds(t) && NewOrderFor(t, sourceId, target, overrides, day).result.Ok?
    ensures var items := GetOrderItems(NewOrderFor(t, sourceId, target, overrides, day).tables.items, t.nextOrderId);
      var src := GetOrderItems(t.items, sourceId);
      |items| == |src| && forall i :: 0 <= i < |src| ==> items[i] == CopiedItem(src[i], Overrides(overrides))
  {
    var id := t.nextOrderId;
    var src := GetOrderItems(t.items, sourceId);
    var number := NextOrderNumber(t.orders, target, day).value;
    NewOrderForOk(t, sourceId, target, overrides, day);
    var rows := CopiedRows(id, number, src, Overrides(overrides));
    assert NewOrderFor(t, sourceId, target, overrides, day).tables.items == t.items + rows;
    forall i, j | 0 <= i < j < |rows| ensures ItemNumberLe(rows[i].item.itemNumber, rows[j].item.itemNumber) {
      assert ItemNumberLe(src[i].itemNumber, src[j].itemNumber);
    }
    NewOrderItems(t.items, rows, id);
  }

  /** The new document has exactly one edge, pointing at the source. */
  lemma NewOrderEdge(t: Tables, sourceId: int, target: int, overrides: seq<OverrideItem>, day: Date)
    requires FreshIds(t) && NewOrderFor(t, sourceId, target, overrides, day).result.Ok?
    ensures GetOrderReferences(NewOrderFor(t, sourceId, target, overrides, day).tables.references, t.nextOrderId)
      == [Reference(t.nextReferenceId, t.nextOrderId, Some(sourceId), None)]
  {
    var id := t.nextOrderId;
    var src := GetOrderItems(t.items, sourceId);
    var number := NextOrderNumber(t.orders, target, day).value;
    var m := Overrides(overrides);
    NewOrderForOk(t, sourceId, target, overrides, day);
    var h := WithNewHeader(t, id, ConvertedHeader(number, day, target, t.orders[sourceId], |src|, sourceId), CopiedPrice(number, t.prices, sourceId));
    var w := h.(items := h.items + CopiedRows(id, number, src, m));
    ReferencesOfOther(t.references, id);
    ReferencesAfterAdd(w, id, Some(sourceId), None, id);
  }

  /** `i` is the last entry of the `items` argument carrying key `k`. */
  predicate LastWithKey(overrides: seq<OverrideItem>, k: OverrideKey, i: int) {
    && 0 <= i < |overrides| && OverrideKeyOf(overrides[i]) == Some(k)
    && forall j :: i < j < |overrides| ==> OverrideKeyOf(overrides[j]) != Some(k)
  }

  /** Some entry of the `items` argument carries key `k`. */
  predicate Names(overrides: seq<OverrideItem>, k: OverrideKey) {
    exists j :: 0 <= j < |overrides| && OverrideKeyOf(overrides[j]) == Some(k)
  }

  /** The quantity a copied item gets, in terms of the `items` argument: that
      of the last entry naming its ISBN; failing that, that of the last entry
      naming its item number. */
  lemma CopiedQuantityOverridden(item: Item, overrides: seq<OverrideItem>, i: int)
    ensures Truthy(item.isbn) && LastWithKey(overrides, IsbnKey(item.isbn.value), i)
      ==> CopiedQuantity(item, Overrides(overrides)) == overrides[i].quantity
    ensures TruthyNumber(item.itemNumber) && !(Truthy(item.isbn) && Names(overrides, IsbnKey(item.isbn.value)))
      && LastWithKey(overrides, NumberKey(item.itemNumber.value), i)
      ==> CopiedQuantity(item, Overrides(overrides)) == overrides[i].quantity
  {
    if Truthy(item.isbn) {
      OverridesDomain(overrides, IsbnKey(item.isbn.value));
      if LastWithKey(overrides, IsbnKey(item.isbn.value), i) {
        OverridesLast(overrides, IsbnKey(item.isbn.value), i);
      }
    }
    if TruthyNumber(item.itemNumber) && LastWithKey(overrides, NumberKey(item.itemNumber.value), i) {
      OverridesLast(overrides, NumberKey(item.itemNumber.value), i);
    }
  }

  /** An item no entry names keeps its own quantity. */
  lemma CopiedQuantityKept(item: Item, overrides: seq<OverrideItem>)
    ensures !(Truthy(item.isbn) && Names(overrides, IsbnKey(item.isbn.value)))
      && !(TruthyNumber(item.itemNumber) && Names(overrides, NumberKey(item.itemNumber.value)))
      ==> CopiedQuantity(item, Overrides(overrides)) == item.quantity
  {
    if Truthy(item.isbn) {
      OverridesDomain(overrides, IsbnKey(item.isbn.value));
    }
    if TruthyNumber(item.itemNumber) {
      OverridesDomain(overrides, NumberKey(item.itemNumber.value));
    }
  }

  // ------------------------------------------------------------ the four steps

  /** The four conversions of the document chain. */
  datatype Transition =
    | QuotationToWaitingShipment
    | PurchaseToWaitingReceipt
    | WaitingShipmentToShipment
    | WaitingReceiptToReceipt

  function From(k: Transition): SourceType {
    match k
    case QuotationToWaitingShipment => Quotation
    case PurchaseToWaitingReceipt => Purchase
    case WaitingShipmentToShipment => WaitingShipment
    case WaitingReceiptToReceipt => WaitingReceipt
  }

  function To(k: Transition): SourceType {
    match k
    case QuotationToWaitingShipment => WaitingShipment
    case PurchaseToWaitingReceipt => WaitingReceipt
    case WaitingShipmentToShipment => Shipment
    case WaitingReceiptToReceipt => Receipt
  }

  /** Conversions into a waiting document stamp the source's Waiting fields;
      the two others stamp its Already fields. */
  predicate StampsWaiting(k: Transition) {
    k == QuotationToWaitingShipment || k == PurchaseToWaitingReceipt
  }

  /** The stock movement of a conversion; a purchase becoming a waiting
      receipt moves nothing. */
  function MovementOf(k: Transition): Option<Movement> {
    match k
    case QuotationToWaitingShipment => Some(Reserve)
    case PurchaseToWaitingReceipt => None
    case WaitingShipmentToShipment => Some(Ship)
    case WaitingReceiptToReceipt => Some(Receive)
  }

  /** `ConversionResultDTO`. */
  datatype ConversionResult = ConversionResult(
    sourceOrderId: int, targetOrderId: int, targetOrderNumber: string, targetOrderDate: string,
    stockCheckResults: Option<seq<StockCheckResult>>, autoPurchaseOrders: Option<seq<AutoPurchaseOrderInfo>>)

  /** `[{"isbn": i.isbn, "quantity": i.quantity or 0} for i in items if i.isbn]`. */
  function StockRequests(items: seq<Item>): (r: seq<StockRequest>)
    ensures |r| <= |items|
    ensures forall x :: x in r <==> exists i :: 0 <= i < |items| && Truthy(items[i].isbn) && x == RequestOf(items[i])
    decreases |items|
  {
    if items == [] then []
    else
      var init := items[..|items| - 1];
      var last := items[|items| - 1];
      var r := StockRequests(init) + (if Truthy(last.isbn) then [RequestOf(last)] else []);
      assert forall i :: 0 <= i < |init| ==> init[i] == items[i];
      r
  }

  /** The stock request of an item with an ISBN: its quantity, or 0. */
  function RequestOf(item: Item): StockRequest
    requires Truthy(item.isbn)
  {
    StockRequest(item.isbn.value, item.quantity.GetOr(0))
  }

  /** A check result that becomes a shortage line. */
  predicate Short(r: StockCheckResult) {
    !r.isSufficient && r.shortage > 0
  }

  /** The shortage lines handed to purchase generation: the insufficient
      results with a positive shortage, in order. */
  function Shortages(results: seq<StockCheckResult>): (r: seq<ShortageItem>)
    ensures |r| <= |results|
    ensures forall x :: x in r <==> exists i :: 0 <= i < |results| && Short(results[i]) && x == ShortageOf(results[i])
    decreases |results|
  {
    if results == [] then []
    else
      var init := results[..|results| - 1];
      var last := results[|results| - 1];
      var r := Shortages(init) + (if Short(last) then [ShortageOf(last)] else []);
      assert forall i :: 0 <= i < |init| ==> init[i] == results[i];
      r
  }

  /** The shortage line of a check result. */
  function ShortageOf(r: StockCheckResult): ShortageItem {
    ShortageItem(r.isbn, r.requested, r.shortage)
  }

  /** Purchase generation, which only the quotation conversion runs, and only
      when asked to and when something is short. */
  function PurchasesFor(t: Tables, k: Transition, sourceId: int, results: seq<StockCheckResult>, autoPurchase: bool, day: Date)
    : (r: Step<seq<AutoPurchaseOrderInfo>, NumberingError>)
    ensures !(k == QuotationToWaitingShipment && autoPurchase) ==> r == Step(t, Ok([]))
  {
    var shortages := Shortages(results);
    if k == QuotationToWaitingShipment && autoPurchase && shortages != [] then PurchaseQuotation(t, sourceId, shortages, day)
    else Step(t, Ok([]))
  }

  /** The source's tracking fields and the stock loop, after the new order. */
  function Finish(t: Tables, k: Transition, sourceId: int, items: seq<Item>, n: NewOrder): Tables {
    var orders := if StampsWaiting(k) then SetWaitingFields(t.orders, sourceId, n.date, n.number)
      else SetAlreadyFields(t.orders, sourceId, n.date, n.number);
    var products := match MovementOf(k)
      case None => t.products
      case Some(m) => MoveItems(t.products, items, m);
    t.(orders := orders, products := products)
  }

  /** A conversion of `sourceId` on the day `day`: the guards, purchase
      generation (quotations only), the new document, the tracking fields and
      the stock movement. Writes made before an error stay. */
  function Convert(t: Tables, k: Transition, sourceId: int, overrides: seq<OverrideItem>, autoPurchase: bool, day: Date)
    : (r: Step<ConversionResult, ConversionError>)
    ensures sourceId !in t.orders ==> r == Step(t, Err(SourceNotFound))
    ensures sourceId in t.orders && t.orders[sourceId].orderSource != Code(From(k)) ==> r == Step(t, Err(WrongSourceType))
    ensures sourceId in t.orders && t.orders[sourceId].orderSource == Code(From(k)) && GetOrderItems(t.items, sourceId) == []
      ==> r == Step(t, Err(NoItems))
  {
    match GetOrderById(t.orders, sourceId)
    case None => Step(t, Err(SourceNotFound))
    case Some(source) =>
      var items := GetOrderItems(t.items, sourceId);
      if source.orderSource != Code(From(k)) then Step(t, Err(WrongSourceType))
      else if k == QuotationToWaitingShipment && items == [] then Step(t, Err(NoItems))
      else
        var results := StockResults(t, k, items);
        AfterPurchases(PurchasesFor(t, k, sourceId, results, autoPurchase, day), k, sourceId, items, results, overrides, day)
  }

  /** The stock check of a conversion: the quotation's requests checked
      against the product table; the other conversions check nothing. */
  function StockResults(t: Tables, k: Transition, items: seq<Item>): (r: seq<StockCheckResult>)
    ensures k == QuotationToWaitingShipment ==> |r| == |StockRequests(items)|
    ensures k != QuotationToWaitingShipment ==> r == []
  {
    if k == QuotationToWaitingShipment then StockChecks(t.products, StockRequests(items)) else []
  }

  /** The rest of a conversion once purchase generation has run. */
  function AfterPurchases(purchase: Step<seq<AutoPurchaseOrderInfo>, NumberingError>, k: Transition, sourceId: int,
                          items: seq<Item>, results: seq<StockCheckResult>, overrides: seq<OverrideItem>, day: Date)
    : (r: Step<ConversionResult, ConversionError>)
  {
    match purchase.result
    case Err(e) => Step(purchase.tables, Err(Numbering(e)))
    case Ok(purchases) =>
      AfterNewOrder(NewOrderFor(purchase.tables, sourceId, Code(To(k)), overrides, day), k, sourceId, items, results, purchases)
  }

  /** The rest of a conversion once the new document is written. */
  function AfterNewOrder(created: Step<NewOrder, ConversionError>, k: Transition, sourceId: int,
                         items: seq<Item>, results: seq<StockCheckResult>, purchases: seq<AutoPurchaseOrderInfo>)
    : (r: Step<ConversionResult, ConversionError>)
  {
    match created.result
    case Err(e) => Step(created.tables, Err(e))
    case Ok(n) =>
      Step(Finish(created.tables, k, sourceId, items, n),
        Ok(ConversionResult(sourceId, n.id, n.number, n.date,
          if k == QuotationToWaitingShipment then Some(results) else None,
          if purchases != [] then Some(purchases) else None)))
  }

  /** The stock loop of a conversion. */
  method MoveStock(db: Database, items: seq<Item>, m: Movement)
    modifies db`products
    ensures db.products == MoveItems(old(db.products), items, m)
    ensures db.State() == old(db.State()).(products := db.products)
  {
    ghost var start := db.products;
    for i := 0 to |items|
      invariant db.products == MoveItems(start, items[..i], m)
    {
      MoveItemsStep(start, items, i, m);
      var item := items[i];
      if item.isbn.Some? && item.isbn.value != "" && item.quantity.Some? && item.quantity.value != 0 {
        MoveOne(db, item.isbn.value, item.quantity.value, m);
      }
    }
    assert items[..|items|] == items;
  }

  /** The counter updates a conversion issues for one moved item. */
  method MoveOne(db: Database, isbn: string, q: int, m: Movement)
    modifies db`products
    ensures db.products == Move(old(db.products), isbn, q, m)
  {
    match m {
      case Reserve =>
        var _ := UpdateWaitingShipmentQuantity(db, isbn, q);
      case Ship =>
        var _ := UpdateWaitingShipmentQuantity(db, isbn, -q);
        var _ := UpdateInStock(db, isbn, -q);
      case Receive =>
        var _ := UpdateWaitingIntoInStock(db, isbn, -q);
        var _ := UpdateInStock(db, isbn, q);
    }
  }

  /** One more item of the stock loop. */
  lemma MoveItemsStep(products: map<string, Product>, items: seq<Item>, i: nat, m: Movement)
    requires i < |items|
    ensures MoveItems(products, items[..i + 1], m)
      == if Moves(items[i]) then Move(MoveItems(products, items[..i], m), items[i].isbn.value, items[i].quantity.value, m)
         else MoveItems(products, items[..i], m)
  {
    assert items[..i + 1][..i] == items[..i];
  }

  /** The tail every conversion shares: stamp the source's tracking fields
      with the new document, then move the stock of the source's items. */
  method FinishConversion(db: Database, k: Transition, sourceId: int, items: seq<Item>, n: NewOrder)
    modifies db`orders, db`products
    ensures db.State() == Finish(old(db.State()), k, sourceId, items, n)
  {
    if StampsWaiting(k) {
      var _ := UpdateOrderWaitingFields(db, sourceId, n.date, n.number);
    } else {
      var _ := UpdateOrderAlreadyFields(db, sourceId, n.date, n.number);
    }
    match MovementOf(k) {
      case None =>
      case Some(m) => MoveStock(db, items, m);
    }
  }

  /** `convert_quotation_to_waiting_shipment`. */
  method ConvertQuotationToWaitingShipment(db: Database, quotationId: int, overrides: seq<OverrideItem>, autoPurchase: bool, day: Date)
    returns (r: Result<ConversionResult, ConversionError>)
    modifies db
    ensures db.State() == Convert(old(db.State()), QuotationToWaitingShipment, quotationId, overrides, autoPurchase, day).tables
    ensures r == Convert(old(db.State()), QuotationToWaitingShipment, quotationId, overrides, autoPurchase, day).result
  {
    ghost var t := db.State();
    var k := QuotationToWaitingShipment;
    var source := GetOrderById(db.orders, quotationId);
    if source.None? {
      return Err(SourceNotFound);
    }
    if source.value.orderSource != Code(Quotation) {
      return Err(WrongSourceType);
    }
    var items := GetOrderItems(db.items, quotationId);
    if items == [] {
      return Err(NoItems);
    }
    var results := CheckStockForItems(db, StockRequests(items));
    var shortages := Shortages(results);
    ghost var purchase := PurchasesFor(t, k, quotationId, results, autoPurchase, day);
    assert Convert(t, k, quotationId, overrides, autoPurchase, day) == AfterPurchases(purchase, k, quotationId, items, results, overrides, day);
    var purchases := [];
    if autoPurchase && shortages != [] {
      var generated := GeneratePurchaseQuotation(db, quotationId, shortages, day);
      if generated.Err? {
        return Err(Numbering(generated.error));
      }
      purchases := generated.value;
    }
    assert purchase == Step(db.State(), Ok(purchases));
    ghost var created := NewOrderFor(db.State(), quotationId, Code(WaitingShipment), overrides, day);
    assert AfterPurchases(purchase, k, quotationId, items, results, overrides, day) == AfterNewOrder(created, k, quotationId, items, results, purchases);
    var made := CreateNewOrder(db, quotationId, Code(WaitingShipment), overrides, day);
    if made.Err? {
      return Err(made.error);
    }
    var n := made.value;
    FinishConversion(db, k, quotationId, items, n);
    r := Ok(ConversionResult(quotationId, n.id, n.number, n.date, Some(results), if purchases != [] then Some(purchases) else None));
  }

  /** `convert_purchase_to_waiting_receipt`. */
  method ConvertPurchaseToWaitingReceipt(db: Database, purchaseId: int, overrides: seq<OverrideItem>, day: Date)
    returns (r: Result<ConversionResult, ConversionError>)
    modifies db
    ensures db.State() == Convert(old(db.State()), PurchaseToWaitingReceipt, purchaseId, overrides, false, day).tables
    ensures r == Convert(old(db.State()), PurchaseToWaitingReceipt, purchaseId, overrides, false, day).result
  {
    ghost var t := db.State();
    var k := PurchaseToWaitingReceipt;
    var source := GetOrderById(db.orders, purchaseId);
    if source.None? {
      return Err(SourceNotFound);
    }
    if source.value.orderSource != Code(Purchase) {
      return Err(WrongSourceType);
    }
    ghost var items := GetOrderItems(t.items, purchaseId);
    assert Convert(t, k, purchaseId, overrides, false, day)
      == AfterNewOrder(NewOrderFor(t, purchaseId, Code(WaitingReceipt), overrides, day), k, purchaseId, items, [], []);
    var made := CreateNewOrder(db, purchaseId, Code(WaitingReceipt), overrides, day);
    if made.Err? {
      return Err(made.error);
    }
    var n := made.value;
    FinishConversion(db, k, purchaseId, [], n);
    r := Ok(ConversionResult(purchaseId, n.id, n.number, n.date, None, None));
  }

  /** `convert_waiting_shipment_to_shipment`. */
  method ConvertWaitingShipmentToShipment(db: Database, waitingId: int, overrides: seq<OverrideItem>, day: Date)
    returns (r: Result<ConversionResult, ConversionError>)
    modifies db
    ensures db.State() == Convert(old(db.State()), WaitingShipmentToShipment, waitingId, overrides, false, day).tables
    ensures r == Convert(old(db.State()), WaitingShipmentToShipment, waitingId, overrides, false, day).result
  {
    ghost var t := db.State();
    var k := WaitingShipmentToShipment;
    var source := GetOrderById(db.orders, waitingId);
    if source.None? {
      return Err(SourceNotFound);
    }
    if source.value.orderSource != Code(WaitingShipment) {
      return Err(WrongSourceType);
    }
    var items := GetOrderItems(db.items, waitingId);
    assert Convert(t, k, waitingId, overrides, false, day)
      == AfterNewOrder(NewOrderFor(t, waitingId, Code(Shipment), overrides, day), k, waitingId, items, [], []);
    var made := CreateNewOrder(db, waitingId, Code(Shipment), overrides, day);
    if made.Err? {
      return Err(made.error);
    }
    var n := made.value;
    FinishConversion(db, k, waitingId, items, n);
    r := Ok(ConversionResult(waitingId, n.id, n.number, n.date, None, None));
  }

  /** `convert_waiting_receipt_to_receipt`. */
  method ConvertWaitingReceiptToReceipt(db: Database, waitingId: int, overrides: seq<OverrideItem>, day: Date)
    returns (r: Result<ConversionResult, ConversionError>)
    modifies db
    ensures db.State() == Convert(old(db.State()), WaitingReceiptToReceipt, waitingId, overrides, false, day).tables
    ensures r == Convert(old(db.State()), WaitingReceiptToReceipt, waitingId, overrides, false, day).result
  {
    ghost var t := db.State();
    var k := WaitingReceiptToReceipt;
    var source := GetOrderById(db.orders, waitingId);
    if source.None? {
      return Err(SourceNotFound);
    }
    if source.value.orderSource != Code(WaitingReceipt) {
      return Err(WrongSourceType);
    }
    var items := GetOrderItems(db.items, waitingId);
    assert Convert(t, k, waitingId, overrides, false, day)
      == AfterNewOrder(NewOrderFor(t, waitingId, Code(Receipt), overrides, day), k, waitingId, items, [], []);
    var made := CreateNewOrder(db, waitingId, Code(Receipt), overrides, day);
    if made.Err? {
      return Err(made.error);
    }
    var n := made.value;
    FinishConversion(db, k, waitingId, items, n);
    r := Ok(ConversionResult(waitingId, n.id, n.number, n.date, None, None));
  }

  // --------------------------------------------------- what a conversion does

  /** A successful conversion, step by step: purchase generation succeeded,
      the new document was written on the tables it left, and the source was
      stamped and the stock moved. */
  lemma ConvertSteps(t: Tables, k: Transition, sourceId: int, overrides: seq<OverrideItem>, autoPurchase: bool, day: Date)
    requires Convert(t, k, sourceId, overrides, autoPurchase, day).result.Ok?
    ensures sourceId in t.orders && t.orders[sourceId].orderSource == Code(From(k))
    ensures var items := GetOrderItems(t.items, sourceId);
      var results := StockResults(t, k, items);
      var p := PurchasesFor(t, k, sourceId, results, autoPurchase, day);
      && p.result.Ok?
      && NewOrderFor(p.tables, sourceId, Code(To(k)), overrides, day).result.Ok?
      && var c := NewOrderFor(p.tables, sourceId, Code(To(k)), overrides, day);
         var n := c.result.value;
         Convert(t, k, sourceId, overrides, autoPurchase, day)
           == Step(Finish(c.tables, k, sourceId, items, n),
                Ok(ConversionResult(sourceId, n.id, n.number, n.date,
                  if k == QuotationToWaitingShipment then Some(results) else None,
                  if p.result.value != [] then Some(p.result.value) else None)))
  {
  }

  /** Purchase generation inside a conversion only adds rows under new ids,
      and the purchase orders it reports hold consecutive ids. */
  lemma PurchasesExtend(t: Tables, k: Transition, sourceId: int, results: seq<StockCheckResult>, autoPurchase: bool, day: Date)
    requires FreshIds(t)
    ensures var p := PurchasesFor(t, k, sourceId, results, autoPurchase, day);
      && Extends(t, p.tables)
      && (p.result.Ok? ==> p.tables.nextOrderId == t.nextOrderId + |p.result.value| && Consecutive(p.result.value, t.nextOrderId))
  {
    if k == QuotationToWaitingShipment && autoPurchase && Shortages(results) != [] {
      PurchaseQuotationExtends(t, sourceId, Shortages(results), day);
    } else {
      ExtendsReflexive(t);
    }
  }

  /** After a successful conversion the source carries the new document's
      date and number in its Waiting fields (conversions into a waiting
      document) or its Already fields (the two others), and no other column and
      no other existing order changed. */
  lemma ConvertedSource(t: Tables, k: Transition, sourceId: int, overrides: seq<OverrideItem>, autoPurchase: bool, day: Date)
    requires FreshIds(t) && Convert(t, k, sourceId, overrides, autoPurchase, day).result.Ok?
    ensures var r := Convert(t, k, sourceId, overrides, autoPurchase, day);
      && sourceId in t.orders && sourceId in r.tables.orders
      && r.result.value.sourceOrderId == sourceId
      && r.result.value.targetOrderDate == SlashDate(day)
    ensures var r := Convert(t, k, sourceId, overrides, autoPurchase, day);
      var res := r.result.value;
      r.tables.orders[sourceId] == if StampsWaiting(k)
        then t.orders[sourceId].(waitingOrderDate := Some(res.targetOrderDate), waitingOrderNumber := Some(res.targetOrderNumber))
        else t.orders[sourceId].(alreadyOrderDate := Some(res.targetOrderDate), alreadyOrderNumber := Some(res.targetOrderNumber))
    ensures var r := Convert(t, k, sourceId, overrides, autoPurchase, day);
      forall id :: id in t.orders && id != sourceId ==> id in r.tables.orders && r.tables.orders[id] == t.orders[id]
  {
    var items := GetOrderItems(t.items, sourceId);
    var results := StockResults(t, k, items);
    ConvertSteps(t, k, sourceId, overrides, autoPurchase, day);
    PurchasesExtend(t, k, sourceId, results, autoPurchase, day);
    var p := PurchasesFor(t, k, sourceId, results, autoPurchase, day);
    NewOrderExtends(p.tables, sourceId, Code(To(k)), overrides, day);
    var c := NewOrderFor(p.tables, sourceId, Code(To(k)), overrides, day);
    ExtendsTransitive(t, p.tables, c.tables);
  }

  /** After a successful conversion the new document is in the table: of the
      target type, for the source's customer or supplier, with the number and
      date reported, as many items as the source, and the id after those of
      the purchase orders generated on the way. */
  lemma ConvertedTarget(t: Tables, k: Transition, sourceId: int, overrides: seq<OverrideItem>, autoPurchase: bool, day: Date)
    requires FreshIds(t) && Convert(t, k, sourceId, overrides, autoPurchase, day).result.Ok?
    ensures var r := Convert(t, k, sourceId, overrides, autoPurchase, day);
      var res := r.result.value;
      && sourceId in t.orders && res.targetOrderId !in t.orders && res.targetOrderId in r.tables.orders
      && res.targetOrderId == t.nextOrderId + (if res.autoPurchaseOrders.Some? then |res.autoPurchaseOrders.value| else 0)
    ensures var r := Convert(t, k, sourceId, overrides, autoPurchase, day);
      var res := r.result.value;
      var o := r.tables.orders[res.targetOrderId];
      && o.orderSource == Code(To(k))
      && o.objectId == t.orders[sourceId].objectId
      && FromInt(o.orderNumber) == res.targetOrderNumber
      && o.orderDate == res.targetOrderDate
      && o.numberOfItems == |GetOrderItems(t.items, sourceId)|
  {
    var items := GetOrderItems(t.items, sourceId);
    var results := StockResults(t, k, items);
    ConvertSteps(t, k, sourceId, overrides, autoPurchase, day);
    PurchasesExtend(t, k, sourceId, results, autoPurchase, day);
    var p := PurchasesFor(t, k, sourceId, results, autoPurchase, day);
    NewOrderHeader(p.tables, sourceId, Code(To(k)), overrides, day);
    ExtendsItems(t, p.tables, sourceId);
    var c := NewOrderFor(p.tables, sourceId, Code(To(k)), overrides, day);
    FinishKeeps(c.tables, k, sourceId, items, c.result.value, p.tables.nextOrderId);
  }

  /** Stamping the source leaves every other order as it was. */
  lemma FinishKeeps(t: Tables, k: Transition, sourceId: int, items: seq<Item>, n: NewOrder, id: int)
    requires id in t.orders && id != sourceId
    ensures id in Finish(t, k, sourceId, items, n).orders && Finish(t, k, sourceId, items, n).orders[id] == t.orders[id]
  {
  }

  /** The quotation conversion reports the stock check of the quotation's
      items; purchase orders are reported only when purchase generation was
      asked for and something was short, and they precede the new document:
      their ids run from the first free id up to the new document's. */
  lemma ConvertedPurchases(t: Tables, k: Transition, sourceId: int, overrides: seq<OverrideItem>, autoPurchase: bool, day: Date)
    requires FreshIds(t) && Convert(t, k, sourceId, overrides, autoPurchase, day).result.Ok?
    ensures var res := Convert(t, k, sourceId, overrides, autoPurchase, day).result.value;
      var checks := StockChecks(t.products, StockRequests(GetOrderItems(t.items, sourceId)));
      && (k == QuotationToWaitingShipment ==> res.stockCheckResults == Some(checks))
      && (k != QuotationToWaitingShipment ==> res.stockCheckResults == None)
      && (res.autoPurchaseOrders.Some? ==> k == QuotationToWaitingShipment && autoPurchase && Shortages(checks) != [])
    ensures var res := Convert(t, k, sourceId, overrides, autoPurchase, day).result.value;
      res.autoPurchaseOrders.Some? ==> forall i :: 0 <= i < |res.autoPurchaseOrders.value| ==>
        res.autoPurchaseOrders.value[i].orderId == t.nextOrderId + i < res.targetOrderId
  {
    var items := GetOrderItems(t.items, sourceId);
    var results := StockResults(t, k, items);
    ConvertSteps(t, k, sourceId, overrides, autoPurchase, day);
    PurchasesExtend(t, k, sourceId, results, autoPurchase, day);
  }

  /** After a successful conversion the new document's items are the source's
      items, copied with the overridden quantities; its one edge points at the
      source; and the source's own items are untouched. */
  lemma ConvertedItems(t: Tables, k: Transition, sourceId: int, overrides: seq<OverrideItem>, autoPurchase: bool, day: Date)
    requires FreshIds(t) && Convert(t, k, sourceId, overrides, autoPurchase, day).result.Ok?
    ensures var r := Convert(t, k, sourceId, overrides, autoPurchase, day);
      var src := GetOrderItems(t.items, sourceId);
      var copied := GetOrderItems(r.tables.items, r.result.value.targetOrderId);
      && |copied| == |src| && src != []
      && (forall i :: 0 <= i < |src| ==> copied[i] == CopiedItem(src[i], Overrides(overrides)))
      && GetOrderItems(r.tables.items, sourceId) == src
    ensures var r := Convert(t, k, sourceId, overrides, autoPurchase, day);
      var edges := GetOrderReferences(r.tables.references, r.result.value.targetOrderId);
      |edges| == 1 && edges[0].orderReferenceId == Some(sourceId) && edges[0].subBillReferenceId == None
  {
    var items := GetOrderItems(t.items, sourceId);
    var results := StockResults(t, k, items);
    ConvertSteps(t, k, sourceId, overrides, autoPurchase, day);
    PurchasesExtend(t, k, sourceId, results, autoPurchase, day);
    var p := PurchasesFor(t, k, sourceId, results, autoPurchase, day);
    ExtendsItems(t, p.tables, sourceId);
    NewOrderHeader(p.tables, sourceId, Code(To(k)), overrides, day);
    NewOrderItemsCopied(p.tables, sourceId, Code(To(k)), overrides, day);
    NewOrderEdge(p.tables, sourceId, Code(To(k)), overrides, day);
    NewOrderExtends(p.tables, sourceId, Code(To(k)), overrides, day);
    var c := NewOrderFor(p.tables, sourceId, Code(To(k)), overrides, day);
    ExtendsItems(p.tables, c.tables, sourceId);
  }

  /** The change a conversion makes to one counter of one product: the
      movement's effect times the quantity of the source's items with that
      ISBN (their own quantities, not the overrides), plus, for the quotation
      with purchase generation, the shortages ordered for it. */
  function StockDelta(k: Transition, items: seq<Item>, ordered: seq<ShortageItem>, isbn: string, c: Counter): int {
    (match MovementOf(k)
     case None => 0
     case Some(m) => Effect(m, c) * MovedQuantity(items, isbn))
    + (if c == WaitingIntoInStock then ShortageTotal(ordered, isbn) else 0)
  }

  /** After a successful conversion every stock counter of every product has
      moved by `StockDelta`. */
  lemma ConvertedStock(t: Tables, k: Transition, sourceId: int, overrides: seq<OverrideItem>, autoPurchase: bool, day: Date, isbn: string)
    requires Convert(t, k, sourceId, overrides, autoPurchase, day).result.Ok?
    requires isbn in t.products
    ensures var p := Convert(t, k, sourceId, overrides, autoPurchase, day).tables.products;
      var items := GetOrderItems(t.items, sourceId);
      var ordered := if k == QuotationToWaitingShipment && autoPurchase then Shortages(StockResults(t, k, items)) else [];
      && isbn in p
      && forall c :: Count(CounterOf(p[isbn], c)) == Count(CounterOf(t.products[isbn], c)) + StockDelta(k, items, ordered, isbn, c)
  {
    var items := GetOrderItems(t.items, sourceId);
    var results := StockResults(t, k, items);
    ConvertSteps(t, k, sourceId, overrides, autoPurchase, day);
    var p := PurchasesFor(t, k, sourceId, results, autoPurchase, day);
    PurchasesStock(t, k, sourceId, results, autoPurchase, day, isbn);
    var c := NewOrderFor(p.tables, sourceId, Code(To(k)), overrides, day);
    FinishStock(c.tables, k, sourceId, items, c.result.value, isbn);
  }

  /** Purchase generation raises `WaitingIntoInStock` by the shortages
      ordered and leaves the other counters alone. */
  lemma PurchasesStock(t: Tables, k: Transition, sourceId: int, results: seq<StockCheckResult>, autoPurchase: bool, day: Date, isbn: string)
    requires isbn in t.products && PurchasesFor(t, k, sourceId, results, autoPurchase, day).result.Ok?
    ensures var p := PurchasesFor(t, k, sourceId, results, autoPurchase, day).tables.products;
      var ordered := if k == QuotationToWaitingShipment && autoPurchase then Shortages(results) else [];
      && isbn in p
      && forall c :: Count(CounterOf(p[isbn], c)) == Count(CounterOf(t.products[isbn], c))
           + (if c == WaitingIntoInStock then ShortageTotal(ordered, isbn) else 0)
  {
    if k == QuotationToWaitingShipment && autoPurchase && Shortages(results) != [] {
      QuotationInbound(t, sourceId, Shortages(results), day, isbn);
    }
  }

  /** Stamping the source leaves the products alone; the stock loop moves
      each counter by the movement's effect times the quantity moved. */
  lemma FinishStock(t: Tables, k: Transition, sourceId: int, items: seq<Item>, n: NewOrder, isbn: string)
    requires isbn in t.products
    ensures var p := Finish(t, k, sourceId, items, n).products;
      && isbn in p
      && forall c :: Count(CounterOf(p[isbn], c)) == Count(CounterOf(t.products[isbn], c))
           + (match MovementOf(k) case None => 0 case Some(m) => Effect(m, c) * MovedQuantity(items, isbn))
  {
    match MovementOf(k) {
      case None =>
      case Some(m) => MoveItemsCounts(t.products, items, m, isbn);
    }
  }
}
