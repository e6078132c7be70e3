/** Product stock: availability, stock checks for a list of items, and the
    additive updates of the stock counters. */
module StockService {
  import opened Wrappers
  import opened Text
  import opened Schema

  /** `ProductStockDTO`: the counters with NULL read as 0, and the availability. */
  datatype ProductStock = ProductStock(
    isbn: string, productName: Option<string>, inStock: int, safetyStock: int,
    waitingIntoInStock: int, waitingShipmentQuantity: int, available: int)

  /** One line of a stock check request. */
  datatype StockRequest = StockRequest(isbn: string, quantity: int)

  /** `StockCheckResultDTO`. */
  datatype StockCheckResult = StockCheckResult(
    isbn: string, productName: Option<string>, requested: int, available: int,
    isSufficient: bool, shortage: int)

  /** `row.get(col) or 0`. */
  function Count(c: Option<int>): int {
    c.GetOr(0)
  }

  /** On-hand stock minus the safety margin, plus what is on its way in, minus
      what is promised out; may be negative. */
  function RawAvailable(p: Product): int {
    Count(p.inStock) - Count(p.safetyStock) + Count(p.waitingIntoInStock) - Count(p.waitingShipmentQuantity)
  }

  /** `max(0, available)`. */
  function Available(p: Product): (a: int)
    ensures a >= 0 && a >= RawAvailable(p)
    ensures a == RawAvailable(p) || a == 0
  {
    if RawAvailable(p) > 0 then RawAvailable(p) else 0
  }

  /** `get_product_stock`. */
  function GetProductStock(products: map<string, Product>, isbn: string): (r: Option<ProductStock>)
    ensures r.None? <==> isbn !in products
    ensures r.Some? ==> r.value.isbn == isbn && r.value.productName == products[isbn].productName
    ensures r.Some? ==> (r.value.available >= 0
      && r.value.available >= r.value.inStock - r.value.safetyStock + r.value.waitingIntoInStock - r.value.waitingShipmentQuantity)
    ensures r.Some? ==> (r.value.inStock == Count(products[isbn].inStock)
      && r.value.safetyStock == Count(products[isbn].safetyStock)
      && r.value.waitingIntoInStock == Count(products[isbn].waitingIntoInStock)
      && r.value.waitingShipmentQuantity == Count(products[isbn].waitingShipmentQuantity)
      && r.value.available == Available(products[isbn]))
  {
    if isbn !in products then None
    else
      var p := products[isbn];
      Some(ProductStock(isbn, p.productName, Count(p.inStock), Count(p.safetyStock),
        Count(p.waitingIntoInStock), Count(p.waitingShipmentQuantity), Available(p)))
  }

  /** `is_shipment_in_stock_enough`: (enough, available). */
  function IsShipmentInStockEnough(products: map<string, Product>, isbn: string, quantity: int): (r: (bool, int))
    ensures isbn !in products ==> r == (false, 0)
    ensures isbn in products ==> r.1 == Available(products[isbn]) && (r.0 <==> Available(products[isbn]) >= quantity)
  {
    match GetProductStock(products, isbn)
    case None => (false, 0)
    case Some(stock) => (stock.available >= quantity, stock.available)
  }

  /** The check of one item in `check_stock_for_items`. */
  function CheckItem(products: map<string, Product>, request: StockRequest): (r: StockCheckResult)
    ensures r.isbn == request.isbn && r.requested == request.quantity
    ensures request.isbn in products ==>
      && r.productName == products[request.isbn].productName
      && r.available == Available(products[request.isbn])
      && (r.isSufficient <==> r.available >= r.requested)
      && (r.isSufficient <==> r.shortage == 0)
      && r.shortage == if r.requested > r.available then r.requested - r.available else 0
    ensures request.isbn !in products ==>
      r == StockCheckResult(request.isbn, None, request.quantity, 0, false, request.quantity)
  {
    match GetProductStock(products, request.isbn)
    case Some(stock) =>
      var available := stock.available;
      var sufficient := available >= request.quantity;
      var shortage := if !sufficient then (if request.quantity - available > 0 then request.quantity - available else 0) else 0;
      StockCheckResult(request.isbn, stock.productName, request.quantity, available, sufficient, shortage)
    case None =>
      StockCheckResult(request.isbn, None, request.quantity, 0, false, request.quantity)
  }

  /** The results `check_stock_for_items` returns for the requests. */
  function StockChecks(products: map<string, Product>, requests: seq<StockRequest>): (r: seq<StockCheckResult>)
    ensures |r| == |requests|
  {
    seq(|requests|, i requires 0 <= i < |requests| => CheckItem(products, requests[i]))
  }

  /** `check_stock_for_items`: one result per request, in order. */
  method CheckStockForItems(db: Database, requests: seq<StockRequest>) returns (results: seq<StockCheckResult>)
    ensures |results| == |requests|
    ensures forall i :: 0 <= i < |requests| ==> results[i] == CheckItem(db.products, requests[i])
    ensures results == StockChecks(db.products, requests)
  {
    results := [];
    for i := 0 to |requests|
      invariant |results| == i
      invariant forall j :: 0 <= j < i ==> results[j] == CheckItem(db.products, requests[j])
    {
      var found := GetProductStock(db.products, requests[i].isbn);
      var r;
      if found.Some? {
        var available := found.value.available;
        var sufficient := available >= requests[i].quantity;
        var shortage := 0;
        if !sufficient {
          shortage := requests[i].quantity - available;
          if shortage < 0 { shortage := 0; }
        }
        r := StockCheckResult(requests[i].isbn, found.value.productName, requests[i].quantity, available, sufficient, shortage);
      } else {
        r := StockCheckResult(requests[i].isbn, None, requests[i].quantity, 0, false, requests[i].quantity);
      }
      results := results + [r];
    }
  }

  /** The stock counter columns the services adjust. */
  datatype Counter = InStock | WaitingIntoInStock | WaitingShipmentQuantity

  function CounterOf(p: Product, c: Counter): Option<int> {
    match c
    case InStock => p.inStock
    case WaitingIntoInStock => p.waitingIntoInStock
    case WaitingShipmentQuantity => p.waitingShipmentQuantity
  }

  /** `UPDATE Product SET col = ISNULL(col, 0) + delta WHERE ISBN = isbn`. */
  function AddToCounter(products: map<string, Product>, isbn: string, c: Counter, delta: int): (r: map<string, Product>)
    ensures r.Keys == products.Keys
    ensures forall k :: k in r && k != isbn ==> r[k] == products[k]
    ensures isbn in products ==>
      && CounterOf(r[isbn], c) == Some(Count(CounterOf(products[isbn], c)) + delta)
      && (forall d :: d != c ==> CounterOf(r[isbn], d) == CounterOf(products[isbn], d))
      && r[isbn].productName == products[isbn].productName
      && r[isbn].supplierId == products[isbn].supplierId
      && r[isbn].safetyStock == products[isbn].safetyStock
  {
    if isbn !in products then products
    else
      var p := products[isbn];
      var v := Some(Count(CounterOf(p, c)) + delta);
      var p' := match c
        case InStock => p.(inStock := v)
        case WaitingIntoInStock => p.(waitingIntoInStock := v)
        case WaitingShipmentQuantity => p.(waitingShipmentQuantity := v);
      products[isbn := p']
  }

  /** Adding a delta and then its negation restores the counter's value
      (a NULL counter comes back as 0). */
  lemma {:induction false} AddThenSubtract(products: map<string, Product>, isbn: string, c: Counter, delta: int)
    requires isbn in products
    ensures var back := AddToCounter(AddToCounter(products, isbn, c, delta), isbn, c, -delta);
      && Count(CounterOf(back[isbn], c)) == Count(CounterOf(products[isbn], c))
      && (CounterOf(products[isbn], c).Some? ==> back == products)
  {
    var back := AddToCounter(AddToCounter(products, isbn, c, delta), isbn, c, -delta);
    if CounterOf(products[isbn], c).Some? {
      assert back[isbn] == products[isbn] by {
        match c
        case InStock =>
        case WaitingIntoInStock =>
        case WaitingShipmentQuantity =>
      }
      assert back == products;
    }
  }

  /** `update_waiting_shipment_quantity`. */
  method UpdateWaitingShipmentQuantity(db: Database, isbn: string, delta: int) returns (ok: bool)
    modifies db`products
    ensures db.products == AddToCounter(old(db.products), isbn, WaitingShipmentQuantity, delta)
    ensures ok
  {
    if isbn in db.products {
      var p := db.products[isbn];
      db.products := db.products[isbn := p.(waitingShipmentQuantity := Some(Count(p.waitingShipmentQuantity) + delta))];
    }
    ok := true;
  }

  /** `update_waiting_into_in_stock`. */
  method UpdateWaitingIntoInStock(db: Database, isbn: string, delta: int) returns (ok: bool)
    modifies db`products
    ensures db.products == AddToCounter(old(db.products), isbn, WaitingIntoInStock, delta)
    ensures ok
  {
    if isbn in db.products {
      var p := db.products[isbn];
      db.products := db.products[isbn := p.(waitingIntoInStock := Some(Count(p.waitingIntoInStock) + delta))];
    }
    ok := true;
  }

  /** `update_in_stock`. */
  method UpdateInStock(db: Database, isbn: string, delta: int) returns (ok: bool)
    modifies db`products
    ensures db.products == AddToCounter(old(db.products), isbn, InStock, delta)
    ensures ok
  {
    if isbn in db.products {
      var p := db.products[isbn];
      db.products := db.products[isbn := p.(inStock := Some(Count(p.inStock) + delta))];
    }
    ok := true;
  }

  /** The stock movements of the document chain. */
  datatype Movement =
    | Reserve   // quotation -> waiting shipment: WaitingShipmentQuantity + q
    | Ship      // waiting shipment -> shipment: WaitingShipmentQuantity - q, InStock - q
    | Receive   // waiting receipt -> receipt: WaitingIntoInStock - q, InStock + q

  /** How a movement of quantity 1 changes a counter. */
  function Effect(m: Movement, c: Counter): int {
    match (m, c)
    case (Reserve, WaitingShipmentQuantity) => 1
    case (Ship, WaitingShipmentQuantity) => -1
    case (Ship, InStock) => -1
    case (Receive, WaitingIntoInStock) => -1
    case (Receive, InStock) => 1
    case _ => 0
  }

  /** The updates one movement of `q` units of one ISBN makes, in the order the
      conversions issue them. */
  function Move(products: map<string, Product>, isbn: string, q: int, m: Movement): (r: map<string, Product>)
    ensures r.Keys == products.Keys
  {
    match m
    case Reserve => AddToCounter(products, isbn, WaitingShipmentQuantity, q)
    case Ship => AddToCounter(AddToCounter(products, isbn, WaitingShipmentQuantity, -q), isbn, InStock, -q)
    case Receive => AddToCounter(AddToCounter(products, isbn, WaitingIntoInStock, -q), isbn, InStock, q)
  }

  /** The items a conversion moves: those with a non-empty ISBN and a non-zero quantity. */
  predicate Moves(item: Item) {
    Truthy(item.isbn) && item.quantity.Some? && item.quantity.value != 0
  }

  /** The conversions' loop `for item in items: if item.isbn and item.quantity: ...`. */
  function MoveItems(products: map<string, Product>, items: seq<Item>, m: Movement): (r: map<string, Product>)
    ensures r.Keys == products.Keys
    decreases |items|
  {
    if items == [] then products
    else
      var before := MoveItems(products, items[..|items| - 1], m);
      var item := items[|items| - 1];
      if Moves(item) then Move(before, item.isbn.value, item.quantity.value, m) else before
  }

  /** The total quantity of the moved items filed under one ISBN. */
  function MovedQuantity(items: seq<Item>, isbn: string): int
    decreases |items|
  {
    if items == [] then 0
    else
      var item := items[|items| - 1];
      MovedQuantity(items[..|items| - 1], isbn) + (if Moves(item) && item.isbn.value == isbn then item.quantity.value else 0)
  }

  lemma MoveCounts(products: map<string, Product>, isbn: string, q: int, m: Movement, key: string)
    ensures Move(products, isbn, q, m).Keys == products.Keys
    ensures key in products ==> forall c :: (Count(CounterOf(Move(products, isbn, q, m)[key], c))
      == Count(CounterOf(products[key], c)) + (if key == isbn then Effect(m, c) * q else 0))
    ensures key in products ==> Move(products, isbn, q, m)[key].safetyStock == products[key].safetyStock
  {
  }

  /** A conversion's stock loop changes each counter of each product by the
      movement's effect times the quantity moved for that ISBN, and nothing else. */
  lemma {:induction false} MoveItemsCounts(products: map<string, Product>, items: seq<Item>, m: Movement, isbn: string)
    ensures MoveItems(products, items, m).Keys == products.Keys
    ensures isbn in products ==> forall c :: (Count(CounterOf(MoveItems(products, items, m)[isbn], c))
      == Count(CounterOf(products[isbn], c)) + Effect(m, c) * MovedQuantity(items, isbn))
    ensures isbn in products ==> MoveItems(products, items, m)[isbn].safetyStock == products[isbn].safetyStock
    decreases |items|
  {
    if items != [] {
      var init := items[..|items| - 1];
      var item := items[|items| - 1];
      MoveItemsCounts(products, init, m, isbn);
      var before := MoveItems(products, init, m);
      if Moves(item) {
        MoveCounts(before, item.isbn.value, item.quantity.value, m, isbn);
      }
    }
  }

  /** Shipping and receiving move goods physically but leave every product's
      availability unchanged; reserving lowers it by the quantity reserved. */
  lemma {:induction false} MovementAvailability(products: map<string, Product>, items: seq<Item>, m: Movement, isbn: string)
    requires isbn in products
    ensures RawAvailable(MoveItems(products, items, m)[isbn])
      == RawAvailable(products[isbn]) - (if m == Reserve then MovedQuantity(items, isbn) else 0)
    ensures m != Reserve ==> Available(MoveItems(products, items, m)[isbn]) == Available(products[isbn])
  {
    MoveItemsCounts(products, items, m, isbn);
    var after := MoveItems(products, items, m)[isbn];
    assert Count(after.inStock) == Count(CounterOf(after, InStock));
    assert Count(after.waitingIntoInStock) == Count(CounterOf(after, WaitingIntoInStock));
    assert Count(after.waitingShipmentQuantity) == Count(CounterOf(after, WaitingShipmentQuantity));
  }
}
