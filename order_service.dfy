/** Orders, their items and their reference edges: lookups, listing with
    paging, traceability, and the updates the conversions use. */
module OrderService {
  import opened Wrappers
  import opened Text
  import opened Sorting
  import opened Schema

  /** The `OrderSource` ordinal values of the document chain. */
  datatype SourceType = Quotation | SubBill | Purchase | WaitingShipment | Shipment | WaitingReceipt | Receipt

  function Code(t: SourceType): (c: int)
    ensures 0 <= c <= 6
  {
    match t
    case Quotation => 0
    case SubBill => 1
    case Purchase => 2
    case WaitingShipment => 3
    case Shipment => 4
    case WaitingReceipt => 5
    case Receipt => 6
  }

  /** The document type an `OrderSource` value stands for. */
  function SourceTypeOf(c: int): (r: Option<SourceType>)
    ensures r.Some? <==> 0 <= c <= 6
    ensures r.Some? ==> Code(r.value) == c
  {
    if c == 0 then Some(Quotation)
    else if c == 1 then Some(SubBill)
    else if c == 2 then Some(Purchase)
    else if c == 3 then Some(WaitingShipment)
    else if c == 4 then Some(Shipment)
    else if c == 5 then Some(WaitingReceipt)
    else if c == 6 then Some(Receipt)
    else None
  }

  /** The seven codes are distinct: each type is recovered from its code. */
  lemma CodeRoundTrip(t: SourceType)
    ensures SourceTypeOf(Code(t)) == Some(t)
  {
  }

  // ---------------------------------------------------------------- lookups

  /** `get_order_by_id`. */
  function GetOrderById(orders: map<int, Order>, id: int): (r: Option<Order>)
    ensures r.Some? <==> id in orders
    ensures r.Some? ==> r.value == orders[id]
  {
    if id in orders then Some(orders[id]) else None
  }

  /** SQL `ORDER BY ItemNumber`: NULL sorts first. */
  predicate ItemNumberLe(a: Option<int>, b: Option<int>) {
    a.None? || (b.Some? && a.value <= b.value)
  }

  predicate SortedByItemNumber(s: seq<Item>) {
    forall i, j :: 0 <= i < j < |s| ==> ItemNumberLe(s[i].itemNumber, s[j].itemNumber)
  }

  /** Places `x` after every element whose item number is not greater. */
  function InsertByItemNumber(s: seq<Item>, x: Item): (r: seq<Item>)
    ensures multiset(r) == multiset(s) + multiset{x}
    ensures |r| == |s| + 1
    decreases |s|
  {
    if s == [] || ItemNumberLe(s[|s| - 1].itemNumber, x.itemNumber) then s + [x]
    else
      var init := s[..|s| - 1];
      assert s == init + [s[|s| - 1]];
      InsertByItemNumber(init, x) + [s[|s| - 1]]
  }

  lemma {:induction false} InsertKeepsSorted(s: seq<Item>, x: Item)
    requires SortedByItemNumber(s)
    ensures SortedByItemNumber(InsertByItemNumber(s, x))
    decreases |s|
  {
    if s != [] && !ItemNumberLe(s[|s| - 1].itemNumber, x.itemNumber) {
      var init := s[..|s| - 1];
      var last := s[|s| - 1];
      assert SortedByItemNumber(init);
      InsertKeepsSorted(init, x);
      var r := InsertByItemNumber(init, x);
      assert s == init + [last];
      forall y | y in r ensures ItemNumberLe(y.itemNumber, last.itemNumber) {
        assert y in multiset(init) + multiset{x};
        if y in init {
          var k :| 0 <= k < |init| && init[k] == y;
          assert s[k] == y;
        }
      }
      var full := r + [last];
      forall i, j | 0 <= i < j < |full| ensures ItemNumberLe(full[i].itemNumber, full[j].itemNumber) {
        if j == |full| - 1 {
          assert full[i] in r;
        } else {
          assert full[i] == r[i] && full[j] == r[j];
        }
      }
    }
  }

  function SortByItemNumber(s: seq<Item>): (r: seq<Item>)
    ensures multiset(r) == multiset(s)
    decreases |s|
  {
    if s == [] then []
    else
      var init := s[..|s| - 1];
      assert s == init + [s[|s| - 1]];
      InsertByItemNumber(SortByItemNumber(init), s[|s| - 1])
  }

  lemma {:induction false} SortIsSorted(s: seq<Item>)
    ensures SortedByItemNumber(SortByItemNumber(s))
    decreases |s|
  {
    if s != [] {
      SortIsSorted(s[..|s| - 1]);
      InsertKeepsSorted(SortByItemNumber(s[..|s| - 1]), s[|s| - 1]);
    }
  }

  /** Rows already in item-number order come back unchanged. */
  lemma {:induction false} SortOfSorted(s: seq<Item>)
    requires SortedByItemNumber(s)
    ensures SortByItemNumber(s) == s
    decreases |s|
  {
    if s != [] {
      var init, last := s[..|s| - 1], s[|s| - 1];
      SortedPrefix(s);
      SortOfSorted(init);
      SortStep(s);
      LastPairOrdered(s);
      InsertAtEnd(init, last);
      Snoc(s);
    }
  }

  lemma SortStep(s: seq<Item>)
    requires s != []
    ensures SortByItemNumber(s) == InsertByItemNumber(SortByItemNumber(s[..|s| - 1]), s[|s| - 1])
  {
  }

  lemma LastPairOrdered(s: seq<Item>)
    requires SortedByItemNumber(s) && s != []
    ensures s[..|s| - 1] == [] || ItemNumberLe(s[..|s| - 1][|s| - 2].itemNumber, s[|s| - 1].itemNumber)
  {
    if |s| >= 2 {
      assert s[..|s| - 1][|s| - 2] == s[|s| - 2];
    }
  }

  lemma Snoc(s: seq<Item>)
    requires s != []
    ensures s[..|s| - 1] + [s[|s| - 1]] == s
  {
  }

  lemma {:induction false} SortedPrefix(s: seq<Item>)
    requires SortedByItemNumber(s) && s != []
    ensures SortedByItemNumber(s[..|s| - 1])
  {
    var init := s[..|s| - 1];
    forall i, j | 0 <= i < j < |init| ensures ItemNumberLe(init[i].itemNumber, init[j].itemNumber) {
      assert init[i] == s[i] && init[j] == s[j];
    }
  }

  lemma InsertAtEnd(s: seq<Item>, x: Item)
    requires s == [] || ItemNumberLe(s[|s| - 1].itemNumber, x.itemNumber)
    ensures InsertByItemNumber(s, x) == s + [x]
  {
  }

  /** The items filed under one order, in table order. */
  function ItemsOf(rows: seq<ItemRow>, orderId: int): (r: seq<Item>)
    ensures |r| <= |rows|
    decreases |rows|
  {
    if rows == [] then []
    else
      var last := rows[|rows| - 1];
      ItemsOf(rows[..|rows| - 1], orderId) + (if last.orderId == orderId then [last.item] else [])
  }

  lemma {:induction false} ItemsOfAppend(a: seq<ItemRow>, b: seq<ItemRow>, orderId: int)
    ensures ItemsOf(a + b, orderId) == ItemsOf(a, orderId) + ItemsOf(b, orderId)
    decreases |b|
  {
    if b == [] {
      assert a + b == a;
    } else {
      assert (a + b)[..|a + b| - 1] == a + b[..|b| - 1];
      ItemsOfAppend(a, b[..|b| - 1], orderId);
    }
  }

  lemma {:induction false} ItemsOfOther(rows: seq<ItemRow>, orderId: int)
    requires forall i :: 0 <= i < |rows| ==> rows[i].orderId != orderId
    ensures ItemsOf(rows, orderId) == []
    decreases |rows|
  {
    if rows != [] {
      ItemsOfOther(rows[..|rows| - 1], orderId);
    }
  }

  /** `get_order_items`: exactly the order's items, ordered by item number. */
  function GetOrderItems(rows: seq<ItemRow>, orderId: int): (r: seq<Item>)
    ensures SortedByItemNumber(r)
    ensures multiset(r) == multiset(ItemsOf(rows, orderId))
  {
    SortIsSorted(ItemsOf(rows, orderId));
    SortByItemNumber(ItemsOf(rows, orderId))
  }

  /** `get_order_references`: the edges leaving the order, in table order. */
  function GetOrderReferences(refs: seq<Reference>, orderId: int): (r: seq<Reference>)
    ensures forall x :: x in r <==> x in refs && x.orderId == orderId
    decreases |refs|
  {
    if refs == [] then []
    else
      var last := refs[|refs| - 1];
      assert refs == refs[..|refs| - 1] + [last];
      GetOrderReferences(refs[..|refs| - 1], orderId) + (if last.orderId == orderId then [last] else [])
  }

  /** The items of rows that all belong to the order, in row order. */
  lemma {:induction false} ItemsOfOwn(rows: seq<ItemRow>, orderId: int)
    requires forall i :: 0 <= i < |rows| ==> rows[i].orderId == orderId
    ensures |ItemsOf(rows, orderId)| == |rows|
    ensures forall i :: 0 <= i < |rows| ==> ItemsOf(rows, orderId)[i] == rows[i].item
    decreases |rows|
  {
    if rows != [] {
      ItemsOfOwn(rows[..|rows| - 1], orderId);
    }
  }

  /** An order whose rows were all appended after the older rows, already in
      item-number order, reads back as exactly those rows. */
  lemma NewOrderItems(older: seq<ItemRow>, added: seq<ItemRow>, orderId: int)
    requires forall i :: 0 <= i < |older| ==> older[i].orderId != orderId
    requires forall i :: 0 <= i < |added| ==> added[i].orderId == orderId
    requires forall i, j :: 0 <= i < j < |added| ==> ItemNumberLe(added[i].item.itemNumber, added[j].item.itemNumber)
    ensures |GetOrderItems(older + added, orderId)| == |added|
    ensures forall i :: 0 <= i < |added| ==> GetOrderItems(older + added, orderId)[i] == added[i].item
  {
    ItemsOfAppend(older, added, orderId);
    ItemsOfOther(older, orderId);
    ItemsOfOwn(added, orderId);
    var own := ItemsOf(added, orderId);
    assert ItemsOf(older + added, orderId) == own;
    assert SortedByItemNumber(own) by {
      forall i, j | 0 <= i < j < |own| ensures ItemNumberLe(own[i].itemNumber, own[j].itemNumber) {
        assert own[i] == added[i].item && own[j] == added[j].item;
      }
    }
    SortOfSorted(own);
  }

  /** Rows appended under new ids leave the items of every older order alone. */
  lemma ExtendsItems(t: Tables, s: Tables, id: int)
    requires Extends(t, s) && id < t.nextOrderId
    ensures ItemsOf(s.items, id) == ItemsOf(t.items, id)
    ensures GetOrderItems(s.items, id) == GetOrderItems(t.items, id)
  {
    var added := s.items[|t.items|..];
    assert s.items == t.items + added;
    ItemsOfAppend(t.items, added, id);
    assert forall i :: 0 <= i < |added| ==> added[i] == s.items[|t.items| + i];
    ItemsOfOther(added, id);
  }

  /** No edge leaves an order that has none in the table. */
  lemma {:induction false} ReferencesOfOther(refs: seq<Reference>, orderId: int)
    requires forall i :: 0 <= i < |refs| ==> refs[i].orderId != orderId
    ensures GetOrderReferences(refs, orderId) == []
    decreases |refs|
  {
    if refs != [] {
      ReferencesOfOther(refs[..|refs| - 1], orderId);
    }
  }

  /** A new edge is seen from its own order only, after the edges it had. */
  lemma ReferencesAfterAdd(t: Tables, orderId: int, referenceId: Option<int>, subBillId: Option<int>, id: int)
    ensures var edge := Reference(t.nextReferenceId, orderId, referenceId, subBillId);
      GetOrderReferences(AddReference(t, orderId, referenceId, subBillId).references, id)
        == GetOrderReferences(t.references, id) + (if orderId == id then [edge] else [])
  {
    var edge := Reference(t.nextReferenceId, orderId, referenceId, subBillId);
    var refs := t.references + [edge];
    assert refs[..|refs| - 1] == t.references;
  }

  datatype OrderDetail = OrderDetail(id: int, order: Order, items: seq<Item>, references: seq<Reference>)

  /** `get_order_detail`. */
  function GetOrderDetail(t: Tables, id: int): (r: Option<OrderDetail>)
    ensures r.None? <==> id !in t.orders
    ensures r.Some? ==> r.value.order == t.orders[id] && r.value.id == id
    ensures r.Some? ==> SortedByItemNumber(r.value.items) && multiset(r.value.items) == multiset(ItemsOf(t.items, id))
    ensures r.Some? ==> forall x :: x in r.value.references <==> x in t.references && x.orderId == id
  {
    match GetOrderById(t.orders, id)
    case None => None
    case Some(o) => Some(OrderDetail(id, o, GetOrderItems(t.items, id), GetOrderReferences(t.references, id)))
  }

  // ---------------------------------------------------------------- listing

  /** An order row with its id, as `OrderDTO` carries it. */
  datatype OrderEntry = OrderEntry(id: int, order: Order)

  /** The optional filters of `list_orders`. */
  datatype OrderFilter = OrderFilter(
    orderSource: Option<int>, objectId: Option<string>, startDate: Option<string>,
    endDate: Option<string>, status: Option<int>)

  /** The `WHERE` clause `list_orders` builds: a filter is applied when it is
      not None (source, status) or non-empty (object id, dates). */
  predicate Matches(f: OrderFilter, o: Order) {
    && (f.orderSource.Some? ==> o.orderSource == f.orderSource.value)
    && (Truthy(f.objectId) ==> o.objectId == f.objectId.value)
    && (Truthy(f.startDate) ==> !LexLess(o.orderDate, f.startDate.value))
    && (Truthy(f.endDate) ==> !LexLess(f.endDate.value, o.orderDate))
    && (f.status.Some? ==> o.status == f.status.value)
  }

  function MatchingEntries(orders: map<int, Order>, f: OrderFilter): set<OrderEntry> {
    set id | id in orders && Matches(f, orders[id]) :: OrderEntry(id, orders[id])
  }

  /** `ORDER BY OrderDate DESC, id DESC`. */
  predicate NewerFirst(a: OrderEntry, b: OrderEntry) {
    LexLess(b.order.orderDate, a.order.orderDate) || (a.order.orderDate == b.order.orderDate && a.id > b.id)
  }

  lemma {:induction false} NewerFirstIsTotal(orders: map<int, Order>, f: OrderFilter)
    ensures StrictTotalOn(MatchingEntries(orders, f), NewerFirst)
  {
    var s := MatchingEntries(orders, f);
    forall x | x in s ensures !NewerFirst(x, x) {
      LexIrreflexive(x.order.orderDate);
    }
    forall x, y, z | x in s && y in s && z in s && NewerFirst(x, y) && NewerFirst(y, z) ensures NewerFirst(x, z) {
      if LexLess(y.order.orderDate, x.order.orderDate) && LexLess(z.order.orderDate, y.order.orderDate) {
        LexTransitive(z.order.orderDate, y.order.orderDate, x.order.orderDate);
      }
    }
    forall x, y | x in s && y in s && x != y ensures NewerFirst(x, y) || NewerFirst(y, x) {
      if x.order.orderDate != y.order.orderDate {
        LexTotal(x.order.orderDate, y.order.orderDate);
      }
    }
  }

  /** The matching orders, newest first. */
  function OrderedMatches(orders: map<int, Order>, f: OrderFilter): (r: seq<OrderEntry>)
    ensures |r| == |MatchingEntries(orders, f)|
    ensures forall e :: e in r <==> e in MatchingEntries(orders, f)
    ensures forall i, j :: 0 <= i < j < |r| ==> NewerFirst(r[i], r[j])
  {
    NewerFirstIsTotal(orders, f);
    SortSet(MatchingEntries(orders, f), NewerFirst)
  }

  /** SQL Server rejects a negative `OFFSET` and a `FETCH NEXT` of less than one row. */
  datatype ListError = InvalidPaging(offset: int, fetch: int)

  datatype OrderPage = OrderPage(orders: seq<OrderEntry>, total: int)

  /** `list_orders`: one page of the matching orders, newest first, and the
      number of all matching orders. */
  function ListOrders(orders: map<int, Order>, f: OrderFilter, page: int, pageSize: int): (r: Result<OrderPage, ListError>)
    ensures r.Ok? <==> page >= 1 && pageSize >= 1
    ensures r.Ok? ==> r.value.total == |MatchingEntries(orders, f)|
    ensures r.Ok? ==> |r.value.orders| <= pageSize
    ensures r.Ok? ==> forall e :: e in r.value.orders ==> e.id in orders && e.order == orders[e.id] && Matches(f, e.order)
    ensures r.Ok? ==> forall i, j :: 0 <= i < j < |r.value.orders| ==> NewerFirst(r.value.orders[i], r.value.orders[j])
    ensures r.Ok? ==> r.value.orders == Window(OrderedMatches(orders, f), (page - 1) * pageSize, pageSize)
  {
    var offset := (page - 1) * pageSize;
    OffsetSign(page, pageSize);
    if offset < 0 || pageSize < 1 then Err(InvalidPaging(offset, pageSize))
    else
      var all := OrderedMatches(orders, f);
      Ok(OrderPage(Window(all, offset, pageSize), |all|))
  }

  lemma {:induction false} OffsetSign(page: int, pageSize: int)
    ensures pageSize >= 1 ==> ((page - 1) * pageSize < 0 <==> page < 1)
  {
    if pageSize >= 1 {
      if page < 1 {
        assert (page - 1) * pageSize <= (page - 1) * 1;
      } else {
        assert (page - 1) * pageSize >= 0;
      }
    }
  }

  /** `OFFSET offset ROWS FETCH NEXT fetch ROWS ONLY` on an ordered result. */
  function Window(all: seq<OrderEntry>, offset: nat, fetch: nat): (r: seq<OrderEntry>)
    ensures |r| <= fetch
    ensures forall e :: e in r ==> e in all
    ensures forall i :: 0 <= i < |r| ==> offset + i < |all| && r[i] == all[offset + i]
    ensures offset <= |all| ==> |r| == (if offset + fetch < |all| then fetch else |all| - offset)
  {
    var start := if offset < |all| then offset else |all|;
    var end := if offset + fetch < |all| then offset + fetch else |all|;
    all[start..end]
  }

  /** Paging is a partition: the matching order at position `i` of the newest-first
      order is entry `i % pageSize` of page `i / pageSize + 1`. */
  lemma {:induction false} PageOfPosition(orders: map<int, Order>, f: OrderFilter, pageSize: int, i: int)
    requires pageSize >= 1 && 0 <= i < |MatchingEntries(orders, f)|
    ensures var r := ListOrders(orders, f, i / pageSize + 1, pageSize);
      r.Ok? && i % pageSize < |r.value.orders| && r.value.orders[i % pageSize] == OrderedMatches(orders, f)[i]
  {
    var page, j := i / pageSize + 1, i % pageSize;
    var offset := (page - 1) * pageSize;
    PagePosition(i, pageSize);
    var all := OrderedMatches(orders, f);
    var w := Window(all, offset, pageSize);
    var r := ListOrders(orders, f, page, pageSize);
    assert r.Ok? && r.value.orders == w;
    WindowIndex(all, offset, pageSize, j);
  }

  lemma WindowIndex(all: seq<OrderEntry>, offset: nat, fetch: nat, j: nat)
    requires offset + j < |all| && j < fetch
    ensures j < |Window(all, offset, fetch)| && Window(all, offset, fetch)[j] == all[offset + j]
  {
  }

  lemma PagePosition(i: int, pageSize: int)
    requires pageSize >= 1 && i >= 0
    ensures i / pageSize >= 0 && 0 <= i % pageSize < pageSize
    ensures (i / pageSize + 1 - 1) * pageSize >= 0
    ensures (i / pageSize + 1 - 1) * pageSize + i % pageSize == i
  {
  }

  // ----------------------------------------------------------- traceability

  /** Orders this one was derived from: one entry per edge with a non-NULL
      target that exists (the inner join), in edge order. */
  function SourceOrders(orders: map<int, Order>, refs: seq<Reference>, id: int): (r: seq<OrderEntry>)
    ensures forall e :: e in r <==> exists k :: 0 <= k < |refs| && IsSourceEdge(orders, refs[k], id) && e == OrderEntry(refs[k].orderReferenceId.value, orders[refs[k].orderReferenceId.value])
    decreases |refs|
  {
    if refs == [] then []
    else
      var last := refs[|refs| - 1];
      var init := refs[..|refs| - 1];
      var r := SourceOrders(orders, init, id) + (if IsSourceEdge(orders, last, id) then [OrderEntry(last.orderReferenceId.value, orders[last.orderReferenceId.value])] else []);
      assert forall k :: 0 <= k < |init| ==> init[k] == refs[k];
      r
  }

  predicate IsSourceEdge(orders: map<int, Order>, ref: Reference, id: int) {
    ref.orderId == id && ref.orderReferenceId.Some? && ref.orderReferenceId.value in orders
  }

  predicate IsDerivedEdge(orders: map<int, Order>, ref: Reference, id: int) {
    ref.orderReferenceId == Some(id) && ref.orderId in orders
  }

  /** Orders derived from this one: one entry per edge pointing at it whose
      origin exists, in edge order. */
  function DerivedOrders(orders: map<int, Order>, refs: seq<Reference>, id: int): (r: seq<OrderEntry>)
    ensures forall e :: e in r <==> exists k :: 0 <= k < |refs| && IsDerivedEdge(orders, refs[k], id) && e == OrderEntry(refs[k].orderId, orders[refs[k].orderId])
    decreases |refs|
  {
    if refs == [] then []
    else
      var last := refs[|refs| - 1];
      var init := refs[..|refs| - 1];
      var r := DerivedOrders(orders, init, id) + (if IsDerivedEdge(orders, last, id) then [OrderEntry(last.orderId, orders[last.orderId])] else []);
      assert forall k :: 0 <= k < |init| ==> init[k] == refs[k];
      r
  }

  datatype Traceability = Traceability(current: OrderEntry, sources: seq<OrderEntry>, derived: seq<OrderEntry>)

  /** `get_order_traceability`. */
  function GetOrderTraceability(t: Tables, id: int): (r: Option<Traceability>)
    ensures r.None? <==> id !in t.orders
    ensures r.Some? ==> r.value.current == OrderEntry(id, t.orders[id])
  {
    match GetOrderById(t.orders, id)
    case None => None
    case Some(o) => Some(Traceability(OrderEntry(id, o), SourceOrders(t.orders, t.references, id), DerivedOrders(t.orders, t.references, id)))
  }

  /** The two directions of traceability agree: `a` is listed as a source of
      `b` exactly when `b` is listed as derived from `a`. */
  lemma {:induction false} TraceabilityIsSymmetric(t: Tables, a: int, b: int)
    requires a in t.orders && b in t.orders
    ensures var ta := GetOrderTraceability(t, a); var tb := GetOrderTraceability(t, b);
      OrderEntry(a, t.orders[a]) in tb.value.sources <==> OrderEntry(b, t.orders[b]) in ta.value.derived
  {
    var ea := OrderEntry(a, t.orders[a]);
    var eb := OrderEntry(b, t.orders[b]);
    if ea in SourceOrders(t.orders, t.references, b) {
      var k :| 0 <= k < |t.references| && IsSourceEdge(t.orders, t.references[k], b)
        && ea == OrderEntry(t.references[k].orderReferenceId.value, t.orders[t.references[k].orderReferenceId.value]);
      assert IsDerivedEdge(t.orders, t.references[k], a);
    }
    if eb in DerivedOrders(t.orders, t.references, a) {
      var k :| 0 <= k < |t.references| && IsDerivedEdge(t.orders, t.references[k], a)
        && eb == OrderEntry(t.references[k].orderId, t.orders[t.references[k].orderId]);
      assert IsSourceEdge(t.orders, t.references[k], b);
    }
  }

  // ---------------------------------------------------------------- updates

  /** `UPDATE Orders SET WaitingOrderDate, WaitingOrderNumber WHERE id`. */
  function SetWaitingFields(orders: map<int, Order>, id: int, date: string, number: string): (r: map<int, Order>)
    ensures r.Keys == orders.Keys
    ensures forall k :: k in r && k != id ==> r[k] == orders[k]
    ensures id in orders ==> r[id] == orders[id].(waitingOrderDate := Some(date), waitingOrderNumber := Some(number))
  {
    if id in orders then orders[id := orders[id].(waitingOrderDate := Some(date), waitingOrderNumber := Some(number))]
    else orders
  }

  /** `UPDATE Orders SET AlreadyOrderDate, AlreadyOrderNumber WHERE id`. */
  function SetAlreadyFields(orders: map<int, Order>, id: int, date: string, number: string): (r: map<int, Order>)
    ensures r.Keys == orders.Keys
    ensures forall k :: k in r && k != id ==> r[k] == orders[k]
    ensures id in orders ==> r[id] == orders[id].(alreadyOrderDate := Some(date), alreadyOrderNumber := Some(number))
  {
    if id in orders then orders[id := orders[id].(alreadyOrderDate := Some(date), alreadyOrderNumber := Some(number))]
    else orders
  }

  /** The two tracking updates write disjoint columns, so they commute, and
      each is idempotent. */
  lemma TrackingUpdatesCommute(orders: map<int, Order>, a: int, da: string, na: string, b: int, db: string, nb: string)
    ensures SetWaitingFields(SetAlreadyFields(orders, b, db, nb), a, da, na)
      == SetAlreadyFields(SetWaitingFields(orders, a, da, na), b, db, nb)
    ensures SetWaitingFields(SetWaitingFields(orders, a, da, na), a, da, na) == SetWaitingFields(orders, a, da, na)
    ensures SetAlreadyFields(SetAlreadyFields(orders, b, db, nb), b, db, nb) == SetAlreadyFields(orders, b, db, nb)
  {
  }

  /** `update_order_waiting_fields`. */
  method UpdateOrderWaitingFields(db: Database, id: int, date: string, number: string) returns (ok: bool)
    modifies db`orders
    ensures db.State() == old(db.State()).(orders := db.orders)
    ensures db.orders == SetWaitingFields(old(db.orders), id, date, number)
    ensures ok
  {
    if id in db.orders {
      db.orders := db.orders[id := db.orders[id].(waitingOrderDate := Some(date), waitingOrderNumber := Some(number))];
    }
    ok := true;
  }

  /** `update_order_already_fields`. */
  method UpdateOrderAlreadyFields(db: Database, id: int, date: string, number: string) returns (ok: bool)
    modifies db`orders
    ensures db.State() == old(db.State()).(orders := db.orders)
    ensures db.orders == SetAlreadyFields(old(db.orders), id, date, number)
    ensures ok
  {
    if id in db.orders {
      db.orders := db.orders[id := db.orders[id].(alreadyOrderDate := Some(date), alreadyOrderNumber := Some(number))];
    }
    ok := true;
  }

  /** The insert of `create_order_reference`: one new edge with the next identity. */
  function AddReference(t: Tables, orderId: int, referenceId: Option<int>, subBillId: Option<int>): (r: Tables)
    ensures r.references == t.references + [Reference(t.nextReferenceId, orderId, referenceId, subBillId)]
    ensures r.nextReferenceId == t.nextReferenceId + 1
    ensures r == t.(references := r.references, nextReferenceId := r.nextReferenceId)
  {
    t.(references := t.references + [Reference(t.nextReferenceId, orderId, referenceId, subBillId)],
       nextReferenceId := t.nextReferenceId + 1)
  }

  /** Inserting an order under the next id with its price row, its item rows
      and one edge leaving it only adds rows under that id. */
  lemma AddOrderExtends(t: Tables, header: Order, price: PriceRow, rows: seq<ItemRow>, referenceId: Option<int>)
    requires FreshIds(t)
    requires forall i :: 0 <= i < |rows| ==> rows[i].orderId == t.nextOrderId
    ensures var id := t.nextOrderId;
      var s := AddReference(t.(orders := t.orders[id := header], nextOrderId := id + 1,
        prices := t.prices[id := price], items := t.items + rows), id, referenceId, None);
      Extends(t, s) && s.nextOrderId == id + 1
  {
    var id := t.nextOrderId;
    var s := AddReference(t.(orders := t.orders[id := header], nextOrderId := id + 1,
      prices := t.prices[id := price], items := t.items + rows), id, referenceId, None);
    assert s.items[..|t.items|] == t.items;
    forall i | 0 <= i < |s.items| ensures s.items[i].orderId < id + 1 && (i >= |t.items| ==> s.items[i].orderId >= id) {
      if i >= |t.items| {
        assert s.items[i] == rows[i - |t.items|];
      }
    }
    assert s.references[..|t.references|] == t.references;
    forall i | 0 <= i < |s.references|
      ensures s.references[i].id < s.nextReferenceId && s.references[i].orderId < s.nextOrderId
    {
      if i < |t.references| {
        assert s.references[i] == t.references[i];
      }
    }
  }

  /** `create_order_reference`. */
  method CreateOrderReference(db: Database, orderId: int, referenceId: Option<int>, subBillId: Option<int>) returns (ok: bool)
    modifies db`references, db`nextReferenceId
    ensures db.State() == AddReference(old(db.State()), orderId, referenceId, subBillId)
    ensures ok
  {
    db.references := db.references + [Reference(db.nextReferenceId, orderId, referenceId, subBillId)];
    db.nextReferenceId := db.nextReferenceId + 1;
    ok := true;
  }
}
