/** Shortage-driven purchase orders: the shortage lines of a quotation are
    grouped by supplier and one purchase order is written per supplier. */
module PurchaseOrderService {
  import opened Wrappers
  import opened Decimal
  import opened Text
  import opened Schema
  import opened Numbering
  import opened StockService
  import opened OrderService

  const UnknownSupplierId: string := "UNKNOWN"
  const UnknownSupplierName: string := "未知供應商"

  /** The row `_get_supplier_for_product` returns. */
  datatype SupplierInfo = SupplierInfo(
    isbn: string, productName: Option<string>, supplierId: Option<string>, supplierName: Option<string>)

  /** `Product LEFT JOIN Supplier ON p.SupplierID = s.ObjectID WHERE p.ISBN = isbn`;
      the supplier id is the product's `SupplierID`, or else the joined `ObjectID`. */
  function GetSupplierForProduct(products: map<string, Product>, suppliers: map<string, string>, isbn: string): (r: Option<SupplierInfo>)
    ensures r.None? <==> isbn !in products
    ensures r.Some? ==> r.value.isbn == isbn && r.value.productName == products[isbn].productName
    ensures r.Some? ==> (r.value.supplierName.Some? <==> products[isbn].supplierId.Some? && products[isbn].supplierId.value in suppliers)
    ensures r.Some? && r.value.supplierName.Some? ==> r.value.supplierName.value == suppliers[products[isbn].supplierId.value]
  {
    if isbn !in products then None
    else
      var p := products[isbn];
      var joined := p.supplierId.Some? && p.supplierId.value in suppliers;
      var objectId := if joined then p.supplierId else None;
      var supplierName := if joined then Some(suppliers[p.supplierId.value]) else None;
      Some(SupplierInfo(isbn, p.productName, if Truthy(p.supplierId) then p.supplierId else objectId, supplierName))
  }

  /** The key an item is grouped under: the supplier id, or "UNKNOWN". */
  function SupplierKey(info: Option<SupplierInfo>): string {
    if info.Some? && Truthy(info.value.supplierId) then info.value.supplierId.value else UnknownSupplierId
  }

  function SupplierLabel(info: Option<SupplierInfo>): string {
    if info.Some? && Truthy(info.value.supplierName) then info.value.supplierName.value else UnknownSupplierName
  }

  /** An item goes to its product's supplier exactly when the product exists
      and names a supplier; every other item goes to the "UNKNOWN" group. */
  lemma SupplierKeyOf(products: map<string, Product>, suppliers: map<string, string>, isbn: string)
    ensures SupplierKey(GetSupplierForProduct(products, suppliers, isbn))
      == if isbn in products && Truthy(products[isbn].supplierId) then products[isbn].supplierId.value else UnknownSupplierId
    ensures SupplierKey(GetSupplierForProduct(products, suppliers, isbn)) != ""
  {
  }

  /** One entry of the `shortage_items` argument. */
  datatype ShortageItem = ShortageItem(isbn: string, quantity: int, shortage: int)

  /** A line of a purchase order: the product and the quantity to order. */
  datatype PurchaseLine = PurchaseLine(isbn: string, productName: Option<string>, quantity: int)

  /** An entry of `supplier_items`. */
  datatype SupplierGroup = SupplierGroup(supplierId: string, supplierName: string, lines: seq<PurchaseLine>)

  predicate Kept(item: ShortageItem) {
    item.shortage > 0
  }

  function LineOf(info: Option<SupplierInfo>, item: ShortageItem): (l: PurchaseLine)
    ensures l.isbn == item.isbn && l.quantity == item.shortage
  {
    PurchaseLine(item.isbn, if info.Some? then info.value.productName else Some(""), item.shortage)
  }

  predicate DistinctIds(groups: seq<SupplierGroup>) {
    forall i, j :: 0 <= i < j < |groups| ==> groups[i].supplierId != groups[j].supplierId
  }

  predicate HasGroup(groups: seq<SupplierGroup>, id: string) {
    exists k :: 0 <= k < |groups| && groups[k].supplierId == id
  }

  /** Appends a line to the group of `id`, opening the group at the end when
      there is none yet. */
  function AddLine(groups: seq<SupplierGroup>, id: string, name: string, line: PurchaseLine): (r: seq<SupplierGroup>)
    ensures |r| == if HasGroup(groups, id) then |groups| else |groups| + 1
    decreases |groups|
  {
    if groups == [] then [SupplierGroup(id, name, [line])]
    else if groups[0].supplierId == id then [groups[0].(lines := groups[0].lines + [line])] + groups[1..]
    else
      HasGroupTail(groups, id);
      [groups[0]] + AddLine(groups[1..], id, name, line)
  }

  lemma HasGroupTail(groups: seq<SupplierGroup>, id: string)
    requires groups != [] && groups[0].supplierId != id
    ensures HasGroup(groups, id) <==> HasGroup(groups[1..], id)
  {
    if HasGroup(groups, id) {
      var k :| 0 <= k < |groups| && groups[k].supplierId == id;
      assert groups[1..][k - 1] == groups[k];
    }
    if HasGroup(groups[1..], id) {
      var k :| 0 <= k < |groups[1..]| && groups[1..][k].supplierId == id;
      assert groups[k + 1] == groups[1..][k];
    }
  }

  /** An existing group gains the line exactly when it is the group of `id`. */
  lemma {:induction false} AddLineAt(groups: seq<SupplierGroup>, id: string, name: string, line: PurchaseLine, k: nat)
    requires DistinctIds(groups) && k < |groups|
    ensures k < |AddLine(groups, id, name, line)|
    ensures AddLine(groups, id, name, line)[k]
      == groups[k].(lines := groups[k].lines + (if groups[k].supplierId == id then [line] else []))
    decreases |groups|
  {
    if groups[0].supplierId == id {
      if k > 0 {
        assert groups[0].supplierId != groups[k].supplierId;
      }
    } else if k > 0 {
      assert DistinctIds(groups[1..]) by {
        forall i, j | 0 <= i < j < |groups[1..]| ensures groups[1..][i].supplierId != groups[1..][j].supplierId {
          assert groups[1..][i] == groups[i + 1] && groups[1..][j] == groups[j + 1];
        }
      }
      AddLineAt(groups[1..], id, name, line, k - 1);
      assert groups[1..][k - 1] == groups[k];
    }
  }

  /** A supplier without a group gets a new one at the end. */
  lemma {:induction false} AddLineNew(groups: seq<SupplierGroup>, id: string, name: string, line: PurchaseLine)
    requires !HasGroup(groups, id)
    ensures |AddLine(groups, id, name, line)| == |groups| + 1
    ensures AddLine(groups, id, name, line)[|groups|] == SupplierGroup(id, name, [line])
    decreases |groups|
  {
    if groups != [] {
      assert groups[0].supplierId != id;
      HasGroupTail(groups, id);
      AddLineNew(groups[1..], id, name, line);
    }
  }

  /** Adding a line never produces two groups of one supplier. */
  lemma AddLineDistinct(groups: seq<SupplierGroup>, id: string, name: string, line: PurchaseLine)
    requires DistinctIds(groups)
    ensures DistinctIds(AddLine(groups, id, name, line))
  {
    var r := AddLine(groups, id, name, line);
    forall k | 0 <= k < |groups| ensures r[k].supplierId == groups[k].supplierId {
      AddLineAt(groups, id, name, line, k);
    }
    if !HasGroup(groups, id) {
      AddLineNew(groups, id, name, line);
    }
  }

  /** The grouping loop of `generate_purchase_quotation`. */
  function Grouped(products: map<string, Product>, suppliers: map<string, string>, items: seq<ShortageItem>): (r: seq<SupplierGroup>)
    ensures DistinctIds(r)
    decreases |items|
  {
    if items == [] then []
    else
      var groups := Grouped(products, suppliers, items[..|items| - 1]);
      var item := items[|items| - 1];
      if !Kept(item) then groups
      else
        var info := GetSupplierForProduct(products, suppliers, item.isbn);
        AddLineDistinct(groups, SupplierKey(info), SupplierLabel(info), LineOf(info, item));
        AddLine(groups, SupplierKey(info), SupplierLabel(info), LineOf(info, item))
  }

  /** The supplier an item is grouped under. */
  function KeyOf(products: map<string, Product>, suppliers: map<string, string>, item: ShortageItem): string {
    SupplierKey(GetSupplierForProduct(products, suppliers, item.isbn))
  }

  /** Reference definition: the lines of one supplier are its kept items, in input order. */
  function LinesFor(products: map<string, Product>, suppliers: map<string, string>, items: seq<ShortageItem>, id: string): seq<PurchaseLine>
    decreases |items|
  {
    if items == [] then []
    else
      var item := items[|items| - 1];
      LinesFor(products, suppliers, items[..|items| - 1], id)
        + (if Kept(item) && KeyOf(products, suppliers, item) == id
           then [LineOf(GetSupplierForProduct(products, suppliers, item.isbn), item)] else [])
  }

  /** The position of the first kept item of a supplier. */
  function FirstKept(products: map<string, Product>, suppliers: map<string, string>, items: seq<ShortageItem>, id: string): (r: nat)
    requires LinesFor(products, suppliers, items, id) != []
    ensures r < |items|
    decreases |items|
  {
    if LinesFor(products, suppliers, items[..|items| - 1], id) != [] then FirstKept(products, suppliers, items[..|items| - 1], id)
    else |items| - 1
  }

  /** One step of the grouping: the groups before the last item, and how that
      item changes group `k`. */
  lemma GroupedStepAt(products: map<string, Product>, suppliers: map<string, string>, items: seq<ShortageItem>, k: nat)
    requires items != [] && k < |Grouped(products, suppliers, items)|
    ensures var before := Grouped(products, suppliers, items[..|items| - 1]);
      var item := items[|items| - 1];
      var info := GetSupplierForProduct(products, suppliers, item.isbn);
      var g := Grouped(products, suppliers, items);
      && (!Kept(item) ==> g == before)
      && (Kept(item) && k < |before| ==>
            g[k] == before[k].(lines := before[k].lines + (if before[k].supplierId == SupplierKey(info) then [LineOf(info, item)] else [])))
      && (Kept(item) && k >= |before| ==>
            k == |before| && !HasGroup(before, SupplierKey(info))
            && g[k] == SupplierGroup(SupplierKey(info), SupplierLabel(info), [LineOf(info, item)]))
  {
    var before := Grouped(products, suppliers, items[..|items| - 1]);
    var item := items[|items| - 1];
    if Kept(item) {
      var info := GetSupplierForProduct(products, suppliers, item.isbn);
      if k < |before| {
        AddLineAt(before, SupplierKey(info), SupplierLabel(info), LineOf(info, item), k);
      } else {
        AddLineNew(before, SupplierKey(info), SupplierLabel(info), LineOf(info, item));
      }
    }
  }

  /** Every supplier with a kept item has a group. */
  lemma {:induction false} GroupedCoversId(products: map<string, Product>, suppliers: map<string, string>, items: seq<ShortageItem>, id: string)
    requires LinesFor(products, suppliers, items, id) != []
    ensures HasGroup(Grouped(products, suppliers, items), id)
    decreases |items|
  {
    var init := items[..|items| - 1];
    var item := items[|items| - 1];
    var before := Grouped(products, suppliers, init);
    var g := Grouped(products, suppliers, items);
    var info := GetSupplierForProduct(products, suppliers, item.isbn);
    var key := SupplierKey(info);
    if LinesFor(products, suppliers, init, id) != [] {
      GroupedCoversId(products, suppliers, init, id);
      var k :| 0 <= k < |before| && before[k].supplierId == id;
      if Kept(item) {
        AddLineAt(before, key, SupplierLabel(info), LineOf(info, item), k);
      }
      assert g[k].supplierId == id;
    } else {
      assert Kept(item) && key == id;
      if HasGroup(before, id) {
        var k :| 0 <= k < |before| && before[k].supplierId == id;
        AddLineAt(before, key, SupplierLabel(info), LineOf(info, item), k);
        assert g[k].supplierId == id;
      } else {
        AddLineNew(before, key, SupplierLabel(info), LineOf(info, item));
        assert g[|before|].supplierId == id;
      }
    }
  }

  /** Group `k` holds exactly its supplier's lines, in input order, and is never empty. */
  lemma {:induction false} GroupedLinesAt(products: map<string, Product>, suppliers: map<string, string>, items: seq<ShortageItem>, k: nat)
    requires k < |Grouped(products, suppliers, items)|
    ensures var g := Grouped(products, suppliers, items);
      g[k].lines == LinesFor(products, suppliers, items, g[k].supplierId) && g[k].lines != []
    decreases |items|
  {
    var init := items[..|items| - 1];
    var item := items[|items| - 1];
    var before := Grouped(products, suppliers, init);
    var g := Grouped(products, suppliers, items);
    GroupedStepAt(products, suppliers, items, k);
    if !Kept(item) || k < |before| {
      GroupedLinesAt(products, suppliers, init, k);
    } else {
      var id := g[k].supplierId;
      if LinesFor(products, suppliers, init, id) != [] {
        GroupedCoversId(products, suppliers, init, id);
      }
    }
  }

  /** Each group holds exactly its supplier's lines, in input order, and is never empty. */
  lemma GroupedLines(products: map<string, Product>, suppliers: map<string, string>, items: seq<ShortageItem>)
    ensures var g := Grouped(products, suppliers, items);
      forall k :: 0 <= k < |g| ==> g[k].lines == LinesFor(products, suppliers, items, g[k].supplierId) && g[k].lines != []
  {
    forall k | 0 <= k < |Grouped(products, suppliers, items)| {
      GroupedLinesAt(products, suppliers, items, k);
    }
  }

  /** Every supplier with a kept item has a group. */
  lemma GroupedCovers(products: map<string, Product>, suppliers: map<string, string>, items: seq<ShortageItem>)
    ensures forall id :: LinesFor(products, suppliers, items, id) != [] ==> HasGroup(Grouped(products, suppliers, items), id)
  {
    forall id | LinesFor(products, suppliers, items, id) != [] {
      GroupedCoversId(products, suppliers, items, id);
    }
  }

  /** Group `k` is named after the lookup of its first item. */
  lemma {:induction false} GroupedNameAt(products: map<string, Product>, suppliers: map<string, string>, items: seq<ShortageItem>, k: nat)
    requires k < |Grouped(products, suppliers, items)|
    ensures var g := Grouped(products, suppliers, items);
      g[k].lines != [] && g[k].supplierName == SupplierLabel(GetSupplierForProduct(products, suppliers, g[k].lines[0].isbn))
    decreases |items|
  {
    var init := items[..|items| - 1];
    var before := Grouped(products, suppliers, init);
    GroupedStepAt(products, suppliers, items, k);
    if !Kept(items[|items| - 1]) || k < |before| {
      GroupedNameAt(products, suppliers, init, k);
    }
  }

  /** A group is named after the lookup of its first item. */
  lemma GroupedNames(products: map<string, Product>, suppliers: map<string, string>, items: seq<ShortageItem>)
    ensures var g := Grouped(products, suppliers, items);
      forall k :: 0 <= k < |g| ==> g[k].lines != [] && g[k].supplierName == SupplierLabel(GetSupplierForProduct(products, suppliers, g[k].lines[0].isbn))
  {
    forall k | 0 <= k < |Grouped(products, suppliers, items)| {
      GroupedNameAt(products, suppliers, items, k);
    }
  }

  /** A supplier whose first kept item comes before the last item keeps that position. */
  lemma FirstKeptStep(products: map<string, Product>, suppliers: map<string, string>, items: seq<ShortageItem>, id: string)
    requires items != [] && LinesFor(products, suppliers, items[..|items| - 1], id) != []
    ensures LinesFor(products, suppliers, items, id) != []
    ensures FirstKept(products, suppliers, items, id) == FirstKept(products, suppliers, items[..|items| - 1], id)
  {
  }

  /** Groups `k < l` come in the order in which their suppliers first appear. */
  lemma {:induction false} GroupedOrderAt(products: map<string, Product>, suppliers: map<string, string>, items: seq<ShortageItem>, k: nat, l: nat)
    requires k < l < |Grouped(products, suppliers, items)|
    ensures var g := Grouped(products, suppliers, items);
      LinesFor(products, suppliers, items, g[k].supplierId) != [] && LinesFor(products, suppliers, items, g[l].supplierId) != []
    ensures var g := Grouped(products, suppliers, items);
      FirstKept(products, suppliers, items, g[k].supplierId) < FirstKept(products, suppliers, items, g[l].supplierId)
    decreases |items|
  {
    var init := items[..|items| - 1];
    var before := Grouped(products, suppliers, init);
    var g := Grouped(products, suppliers, items);
    GroupedLinesAt(products, suppliers, items, k);
    GroupedLinesAt(products, suppliers, items, l);
    GroupedStepAt(products, suppliers, items, k);
    GroupedStepAt(products, suppliers, items, l);
    var a, b := g[k].supplierId, g[l].supplierId;
    assert a == before[k].supplierId;
    GroupedLinesAt(products, suppliers, init, k);
    FirstKeptStep(products, suppliers, items, a);
    if l < |before| {
      assert b == before[l].supplierId;
      GroupedLinesAt(products, suppliers, init, l);
      FirstKeptStep(products, suppliers, items, b);
      GroupedOrderAt(products, suppliers, init, k, l);
    } else {
      if LinesFor(products, suppliers, init, b) != [] {
        GroupedCoversId(products, suppliers, init, b);
      }
      assert FirstKept(products, suppliers, items, b) == |items| - 1;
    }
  }

  /** Groups come in the order in which their suppliers first appear. */
  lemma GroupedOrder(products: map<string, Product>, suppliers: map<string, string>, items: seq<ShortageItem>)
    ensures var g := Grouped(products, suppliers, items);
      forall k :: 0 <= k < |g| ==> LinesFor(products, suppliers, items, g[k].supplierId) != []
    ensures var g := Grouped(products, suppliers, items);
      forall k, l :: 0 <= k < l < |g| ==>
        FirstKept(products, suppliers, items, g[k].supplierId) < FirstKept(products, suppliers, items, g[l].supplierId)
  {
    GroupedLines(products, suppliers, items);
    var g := Grouped(products, suppliers, items);
    forall k, l | 0 <= k < l < |g|
      ensures LinesFor(products, suppliers, items, g[k].supplierId) != [] && LinesFor(products, suppliers, items, g[l].supplierId) != []
        && FirstKept(products, suppliers, items, g[k].supplierId) < FirstKept(products, suppliers, items, g[l].supplierId)
    {
      GroupedOrderAt(products, suppliers, items, k, l);
    }
  }

  /** The grouping loop of `generate_purchase_quotation`, over the tables of `db`. */
  method GroupBySupplier(db: Database, items: seq<ShortageItem>) returns (groups: seq<SupplierGroup>)
    ensures groups == Grouped(db.products, db.suppliers, items)
  {
    groups := [];
    for i := 0 to |items|
      invariant groups == Grouped(db.products, db.suppliers, items[..i])
    {
      assert items[..i + 1][..i] == items[..i];
      var item := items[i];
      if item.shortage <= 0 {
        continue;
      }
      var info := GetSupplierForProduct(db.products, db.suppliers, item.isbn);
      var supplierId := if info.Some? && Truthy(info.value.supplierId) then info.value.supplierId.value else UnknownSupplierId;
      var supplierName := if info.Some? && Truthy(info.value.supplierName) then info.value.supplierName.value else UnknownSupplierName;
      var line := PurchaseLine(item.isbn, if info.Some? then info.value.productName else Some(""), item.shortage);
      groups := AddLine(groups, supplierId, supplierName, line);
    }
    assert items[..|items|] == items;
  }

  /** Grouping keeps nothing when no item has a positive shortage. */
  lemma {:induction false} NothingKept(products: map<string, Product>, suppliers: map<string, string>, items: seq<ShortageItem>)
    requires forall i :: 0 <= i < |items| ==> !Kept(items[i])
    ensures Grouped(products, suppliers, items) == []
    decreases |items|
  {
    if items != [] {
      NothingKept(products, suppliers, items[..|items| - 1]);
    }
  }

  // ------------------------------------------------------- writing the orders

  /** The summary `generate_purchase_quotation` returns per purchase order. */
  datatype AutoPurchaseOrderInfo = AutoPurchaseOrderInfo(
    orderId: int, orderNumber: string, supplierId: string, supplierName: string, itemsCount: int)

  function PurchaseRemark(sourceId: int): string {
    "由報價單 #" + FromInt(sourceId) + " 自動產生"
  }

  /** The `Orders` row of a purchase order. */
  function PurchaseHeader(number: int, day: Date, g: SupplierGroup, sourceId: int): Order {
    Order(number, SlashDate(day), Code(Purchase), g.supplierId, false, |g.lines|, SystemEstablished,
      false, false, PurchaseRemark(sourceId), "", 0, None, None, None, None)
  }

  /** The item written for the line at position `index`: numbered from 1, unpriced. */
  function PurchaseItem(index: nat, line: PurchaseLine): Item {
    Item(Some(index + 1), Some(line.isbn), line.productName, Some(line.quantity), Some(""),
      Some(0.0), Some(0.0), Some(0.0), Some(0), Some(""))
  }

  function PurchaseItemRows(id: int, number: int, lines: seq<PurchaseLine>): (r: seq<ItemRow>)
    ensures |r| == |lines|
    ensures forall i :: 0 <= i < |lines| ==> r[i] == ItemRow(id, number, PurchaseItem(i, lines[i]))
  {
    seq(|lines|, i requires 0 <= i < |lines| => ItemRow(id, number, PurchaseItem(i, lines[i])))
  }

  /** `update_waiting_into_in_stock(isbn, quantity)` for each line in turn. */
  function AddInbound(products: map<string, Product>, lines: seq<PurchaseLine>): (r: map<string, Product>)
    ensures r.Keys == products.Keys
    decreases |lines|
  {
    if lines == [] then products
    else
      var last := lines[|lines| - 1];
      AddToCounter(AddInbound(products, lines[..|lines| - 1]), last.isbn, WaitingIntoInStock, last.quantity)
  }

  /** The quantity ordered for one ISBN. */
  function LineQuantity(lines: seq<PurchaseLine>, isbn: string): int
    decreases |lines|
  {
    if lines == [] then 0
    else
      var last := lines[|lines| - 1];
      LineQuantity(lines[..|lines| - 1], isbn) + (if last.isbn == isbn then last.quantity else 0)
  }

  /** The lines raise a product's `WaitingIntoInStock` by the quantity ordered
      for it and leave every other column alone. */
  lemma {:induction false} AddInboundCounts(products: map<string, Product>, lines: seq<PurchaseLine>, isbn: string)
    requires isbn in products
    ensures var p := AddInbound(products, lines)[isbn];
      && Count(p.waitingIntoInStock) == Count(products[isbn].waitingIntoInStock) + LineQuantity(lines, isbn)
      && p == products[isbn].(waitingIntoInStock := p.waitingIntoInStock)
    decreases |lines|
  {
    if lines != [] {
      AddInboundCounts(products, lines[..|lines| - 1], isbn);
    }
  }

  /** The header and the zero price row of purchase order `id`. */
  function WithHeader(t: Tables, id: int, number: int, header: Order): Tables {
    t.(orders := t.orders[id := header], nextOrderId := id + 1, prices := t.prices[id := PriceRow(number, 0, 0, 0, 0)])
  }

  /** The item rows of purchase order `id` and their stock updates. */
  function WithLines(t: Tables, id: int, number: int, lines: seq<PurchaseLine>): Tables {
    t.(items := t.items + PurchaseItemRows(id, number, lines), products := AddInbound(t.products, lines))
  }

  /** The writes of one purchase order numbered `number`: a header, a zero
      price row, the items with their stock updates and the reference to the
      quotation. */
  function WritePurchase(t: Tables, sourceId: int, g: SupplierGroup, day: Date, number: int): (r: Step<AutoPurchaseOrderInfo, NumberingError>)
    ensures r.result.Ok?
  {
    var id := t.nextOrderId;
    var written := WithLines(WithHeader(t, id, number, PurchaseHeader(number, day, g, sourceId)), id, number, g.lines);
    Step(AddReference(written, id, Some(sourceId), None),
      Ok(AutoPurchaseOrderInfo(id, FromInt(number), g.supplierId, g.supplierName, |g.lines|)))
  }

  /** One iteration of the per-supplier loop. */
  function PurchaseOrderFor(t: Tables, sourceId: int, g: SupplierGroup, day: Date): (r: Step<AutoPurchaseOrderInfo, NumberingError>)
    ensures r.result.Err? ==> r.tables == t
  {
    match NextOrderNumber(t.orders, Code(Purchase), day)
    case Err(e) => Step(t, Err(e))
    case Ok(number) => WritePurchase(t, sourceId, g, day, number)
  }

  /** The per-supplier loop; the first numbering error ends it, keeping the
      orders already written. */
  function PurchaseOrdersFor(t: Tables, sourceId: int, groups: seq<SupplierGroup>, day: Date): (r: Step<seq<AutoPurchaseOrderInfo>, NumberingError>)
    ensures r.result.Ok? ==> |r.result.value| <= |groups|
    decreases |groups|
  {
    if groups == [] then Step(t, Ok([]))
    else
      var prev := PurchaseOrdersFor(t, sourceId, groups[..|groups| - 1], day);
      var g := groups[|groups| - 1];
      if prev.result.Err? || g.lines == [] then prev
      else
        var s := PurchaseOrderFor(prev.tables, sourceId, g, day);
        Step(s.tables, if s.result.Ok? then Ok(prev.result.value + [s.result.value]) else Err(s.result.error))
  }

  /** One more group: skipped when empty or after an error, otherwise its
      purchase order is written after the earlier ones. */
  lemma PurchaseOrdersForStep(t: Tables, sourceId: int, groups: seq<SupplierGroup>, day: Date, i: nat)
    requires i < |groups|
    ensures var prev := PurchaseOrdersFor(t, sourceId, groups[..i], day);
      PurchaseOrdersFor(t, sourceId, groups[..i + 1], day) ==
        if prev.result.Err? || groups[i].lines == [] then prev
        else
          var s := PurchaseOrderFor(prev.tables, sourceId, groups[i], day);
          Step(s.tables, if s.result.Ok? then Ok(prev.result.value + [s.result.value]) else Err(s.result.error))
  {
    assert groups[..i + 1][..i] == groups[..i];
  }

  /** `generate_purchase_quotation(source_quotation_id, shortage_items)`. */
  function PurchaseQuotation(t: Tables, sourceId: int, items: seq<ShortageItem>, day: Date): (r: Step<seq<AutoPurchaseOrderInfo>, NumberingError>)
    ensures items == [] ==> r == Step(t, Ok([]))
  {
    if items == [] then Step(t, Ok([]))
    else PurchaseOrdersFor(t, sourceId, Grouped(t.products, t.suppliers, items), day)
  }

  /** Without a positive shortage nothing is written and nothing is returned. */
  lemma {:induction false} NoShortageNoWrites(t: Tables, sourceId: int, items: seq<ShortageItem>, day: Date)
    requires forall i :: 0 <= i < |items| ==> items[i].shortage <= 0
    ensures PurchaseQuotation(t, sourceId, items, day) == Step(t, Ok([]))
  {
    NothingKept(t.products, t.suppliers, items);
  }

  /** Once the loop has stopped with an error, later groups change nothing. */
  lemma {:induction false} ErrorStops(t: Tables, sourceId: int, groups: seq<SupplierGroup>, day: Date, n: nat)
    requires n <= |groups|
    requires PurchaseOrdersFor(t, sourceId, groups[..n], day).result.Err?
    ensures PurchaseOrdersFor(t, sourceId, groups, day) == PurchaseOrdersFor(t, sourceId, groups[..n], day)
    decreases |groups| - n
  {
    if n < |groups| {
      assert groups[..n + 1][..n] == groups[..n];
      ErrorStops(t, sourceId, groups, day, n + 1);
    } else {
      assert groups[..n] == groups;
    }
  }

  // ------------------------------------------------ what one order contains

  /** The item read back at position `i` of a purchase order: line `i`,
      numbered `i + 1`, with every price zero. */
  predicate IsPurchaseItem(x: Item, i: nat, line: PurchaseLine) {
    && x.itemNumber == Some(i + 1) && x.isbn == Some(line.isbn) && x.productName == line.productName
    && x.quantity == Some(line.quantity)
    && x.batchPrice == Some(0.0) && x.singlePrice == Some(0.0) && x.pricing == Some(0.0) && x.priceAmount == Some(0)
  }

  /** The items of a new purchase order read back as its lines, numbered 1..n. */
  lemma PurchaseOrderItems(t: Tables, g: SupplierGroup, number: int)
    requires FreshIds(t)
    ensures var id := t.nextOrderId;
      var items := GetOrderItems(t.items + PurchaseItemRows(id, number, g.lines), id);
      |items| == |g.lines| && forall i :: 0 <= i < |g.lines| ==> IsPurchaseItem(items[i], i, g.lines[i])
  {
    var id := t.nextOrderId;
    var rows := PurchaseItemRows(id, number, g.lines);
    NewOrderItems(t.items, rows, id);
  }

  /** Writing a purchase order issues one order id and one reference id and
      files every row under issued ids. */
  lemma WritePurchaseFresh(t: Tables, sourceId: int, g: SupplierGroup, day: Date, number: int)
    requires FreshIds(t)
    ensures var s := WritePurchase(t, sourceId, g, day, number).tables;
      FreshIds(s) && s.nextOrderId == t.nextOrderId + 1 && s.nextReferenceId == t.nextReferenceId + 1
  {
    var id := t.nextOrderId;
    var rows := PurchaseItemRows(id, number, g.lines);
    var w := WithLines(WithHeader(t, id, number, PurchaseHeader(number, day, g, sourceId)), id, number, g.lines);
    assert w.items == t.items + rows;
    forall i | 0 <= i < |w.items| ensures w.items[i].orderId < id + 1 {
      if i >= |t.items| {
        assert w.items[i] == rows[i - |t.items|];
      }
    }
    var s := AddReference(w, id, Some(sourceId), None);
    assert s == WritePurchase(t, sourceId, g, day, number).tables;
    forall i | 0 <= i < |s.references|
      ensures s.references[i].id < s.nextReferenceId && s.references[i].orderId < s.nextOrderId
    {
      if i < |t.references| {
        assert s.references[i] == t.references[i];
      }
    }
  }

  /** Writing a purchase order only adds rows under the new order id. */
  lemma WritePurchaseExtends(t: Tables, sourceId: int, g: SupplierGroup, day: Date, number: int)
    requires FreshIds(t)
    ensures Extends(t, WritePurchase(t, sourceId, g, day, number).tables)
  {
    WritePurchaseFresh(t, sourceId, g, day, number);
    var id := t.nextOrderId;
    var rows := PurchaseItemRows(id, number, g.lines);
    var s := WritePurchase(t, sourceId, g, day, number).tables;
    assert s.items == t.items + rows;
    assert s.items[..|t.items|] == t.items;
    forall i | |t.items| <= i < |s.items| ensures s.items[i].orderId >= t.nextOrderId {
      assert s.items[i] == rows[i - |t.items|];
    }
    assert s.references == t.references + [Reference(t.nextReferenceId, id, Some(sourceId), None)];
    assert s.references[..|t.references|] == t.references;
  }

  /** Ids `base`, `base + 1`, ... stay consecutive when the next one is appended. */
  predicate Consecutive(infos: seq<AutoPurchaseOrderInfo>, base: int) {
    forall k :: 0 <= k < |infos| ==> infos[k].orderId == base + k
  }

  lemma ConsecutiveSnoc(infos: seq<AutoPurchaseOrderInfo>, info: AutoPurchaseOrderInfo, base: int)
    requires Consecutive(infos, base) && info.orderId == base + |infos|
    ensures Consecutive(infos + [info], base)
  {
    forall k | 0 <= k < |infos| + 1 ensures (infos + [info])[k].orderId == base + k {
      if k < |infos| {
        assert (infos + [info])[k] == infos[k];
      }
    }
  }

  /** One unfolding of the per-supplier loop. */
  lemma OrdersForStep(t: Tables, sourceId: int, groups: seq<SupplierGroup>, day: Date)
    requires groups != []
    ensures var prev := PurchaseOrdersFor(t, sourceId, groups[..|groups| - 1], day);
      var g := groups[|groups| - 1];
      var r := PurchaseOrdersFor(t, sourceId, groups, day);
      && (prev.result.Err? || g.lines == [] ==> r == prev)
      && (prev.result.Ok? && g.lines != [] ==>
            var s := PurchaseOrderFor(prev.tables, sourceId, g, day);
            && r.tables == s.tables && (r.result.Ok? <==> s.result.Ok?)
            && (r.result.Ok? ==> r.result.value == prev.result.value + [s.result.value]))
  {
  }

  /** The per-supplier loop only adds rows under new ids, and the orders it
      reports received consecutive ids from `t.nextOrderId` on. */
  lemma {:induction false} PurchaseOrdersExtend(t: Tables, sourceId: int, groups: seq<SupplierGroup>, day: Date)
    requires FreshIds(t)
    ensures Extends(t, PurchaseOrdersFor(t, sourceId, groups, day).tables)
    ensures var r := PurchaseOrdersFor(t, sourceId, groups, day);
      r.result.Ok? ==> r.tables.nextOrderId == t.nextOrderId + |r.result.value| && Consecutive(r.result.value, t.nextOrderId)
    decreases |groups|
  {
    if groups == [] {
      ExtendsReflexive(t);
    } else {
      var prev := PurchaseOrdersFor(t, sourceId, groups[..|groups| - 1], day);
      var g := groups[|groups| - 1];
      PurchaseOrdersExtend(t, sourceId, groups[..|groups| - 1], day);
      OrdersForStep(t, sourceId, groups, day);
      if prev.result.Ok? && g.lines != [] {
        var s := PurchaseOrderFor(prev.tables, sourceId, g, day);
        if s.result.Ok? {
          var number := NextOrderNumber(prev.tables.orders, Code(Purchase), day).value;
          assert s == WritePurchase(prev.tables, sourceId, g, day, number);
          WritePurchaseExtends(prev.tables, sourceId, g, day, number);
          WritePurchaseFresh(prev.tables, sourceId, g, day, number);
          ExtendsTransitive(t, prev.tables, s.tables);
          ConsecutiveSnoc(prev.result.value, s.result.value, t.nextOrderId);
        }
      }
    }
  }

  /** Purchase generation only adds rows under new ids, and numbers the orders
      it reports consecutively. */
  lemma PurchaseQuotationExtends(t: Tables, sourceId: int, items: seq<ShortageItem>, day: Date)
    requires FreshIds(t)
    ensures Extends(t, PurchaseQuotation(t, sourceId, items, day).tables)
    ensures var r := PurchaseQuotation(t, sourceId, items, day);
      r.result.Ok? ==> r.tables.nextOrderId == t.nextOrderId + |r.result.value| && Consecutive(r.result.value, t.nextOrderId)
  {
    if items == [] {
      ExtendsReflexive(t);
    } else {
      PurchaseOrdersExtend(t, sourceId, Grouped(t.products, t.suppliers, items), day);
    }
  }

  /** One purchase order, read back through the order service: a purchase
      header for the supplier with the generated number and the line count,
      a zero price row, the lines numbered from 1 with zero prices, and exactly
      one edge, pointing at the quotation. The summary names that order. */
  lemma PurchaseOrderContents(t: Tables, sourceId: int, g: SupplierGroup, day: Date, number: int)
    requires FreshIds(t)
    ensures var id := t.nextOrderId;
      var s := WritePurchase(t, sourceId, g, day, number);
      && GetOrderDetail(s.tables, id).Some?
      && s.result.value.orderId == id
      && s.tables.nextOrderId == id + 1
    ensures var id := t.nextOrderId;
      var s := WritePurchase(t, sourceId, g, day, number);
      var d := GetOrderDetail(s.tables, id).value;
      && d.order.orderNumber == number && d.order.orderSource == Code(Purchase)
      && d.order.objectId == g.supplierId && d.order.numberOfItems == |g.lines|
      && d.order.orderDate == SlashDate(day)
      && s.tables.prices[id] == PriceRow(number, 0, 0, 0, 0)
      && s.result.value.orderNumber == FromInt(d.order.orderNumber)
      && s.result.value.itemsCount == |d.items|
    ensures var id := t.nextOrderId;
      var d := GetOrderDetail(WritePurchase(t, sourceId, g, day, number).tables, id).value;
      |d.items| == |g.lines| && forall i :: 0 <= i < |g.lines| ==> IsPurchaseItem(d.items[i], i, g.lines[i])
    ensures var id := t.nextOrderId;
      var d := GetOrderDetail(WritePurchase(t, sourceId, g, day, number).tables, id).value;
      d.references == [Reference(t.nextReferenceId, id, Some(sourceId), None)]
  {
    var id := t.nextOrderId;
    var w := WithLines(WithHeader(t, id, number, PurchaseHeader(number, day, g, sourceId)), id, number, g.lines);
    PurchaseOrderItems(t, g, number);
    ReferencesOfOther(t.references, id);
    ReferencesAfterAdd(w, id, Some(sourceId), None, id);
  }

  // ------------------------------------------------------- inbound quantities

  /** The quantity all groups order for one ISBN. */
  function GroupsQuantity(groups: seq<SupplierGroup>, isbn: string): int
    decreases |groups|
  {
    if groups == [] then 0 else LineQuantity(groups[0].lines, isbn) + GroupsQuantity(groups[1..], isbn)
  }

  /** The positive shortages recorded for one ISBN. */
  function ShortageTotal(items: seq<ShortageItem>, isbn: string): int
    decreases |items|
  {
    if items == [] then 0
    else
      var last := items[|items| - 1];
      ShortageTotal(items[..|items| - 1], isbn) + (if Kept(last) && last.isbn == isbn then last.shortage else 0)
  }

  lemma LineQuantityAppend(lines: seq<PurchaseLine>, line: PurchaseLine, isbn: string)
    ensures LineQuantity(lines + [line], isbn) == LineQuantity(lines, isbn) + (if line.isbn == isbn then line.quantity else 0)
  {
    assert (lines + [line])[..|lines|] == lines;
  }

  /** Adding a line raises the ordered quantity of its ISBN by its quantity. */
  lemma {:induction false} AddLineQuantity(groups: seq<SupplierGroup>, id: string, name: string, line: PurchaseLine, isbn: string)
    ensures GroupsQuantity(AddLine(groups, id, name, line), isbn)
      == GroupsQuantity(groups, isbn) + (if line.isbn == isbn then line.quantity else 0)
    decreases |groups|
  {
    var r := AddLine(groups, id, name, line);
    if groups == [] {
      LineQuantityAppend([], line, isbn);
      assert [] + [line] == [line];
      assert r[1..] == [];
    } else if groups[0].supplierId == id {
      LineQuantityAppend(groups[0].lines, line, isbn);
      assert r[1..] == groups[1..];
    } else {
      AddLineQuantity(groups[1..], id, name, line, isbn);
      assert r[1..] == AddLine(groups[1..], id, name, line);
    }
  }

  /** The groups order exactly the positive shortages, ISBN by ISBN. */
  lemma {:induction false} GroupedQuantity(products: map<string, Product>, suppliers: map<string, string>, items: seq<ShortageItem>, isbn: string)
    ensures GroupsQuantity(Grouped(products, suppliers, items), isbn) == ShortageTotal(items, isbn)
    decreases |items|
  {
    if items != [] {
      var init := items[..|items| - 1];
      var item := items[|items| - 1];
      GroupedQuantity(products, suppliers, init, isbn);
      if Kept(item) {
        var info := GetSupplierForProduct(products, suppliers, item.isbn);
        AddLineQuantity(Grouped(products, suppliers, init), SupplierKey(info), SupplierLabel(info), LineOf(info, item), isbn);
      }
    }
  }

  lemma {:induction false} GroupsQuantitySnoc(groups: seq<SupplierGroup>, g: SupplierGroup, isbn: string)
    ensures GroupsQuantity(groups + [g], isbn) == GroupsQuantity(groups, isbn) + LineQuantity(g.lines, isbn)
    decreases |groups|
  {
    if groups == [] {
      assert ([] + [g])[1..] == [];
    } else {
      assert (groups + [g])[1..] == groups[1..] + [g];
      GroupsQuantitySnoc(groups[1..], g, isbn);
    }
  }

  lemma GroupsQuantityLast(groups: seq<SupplierGroup>, isbn: string)
    requires groups != []
    ensures GroupsQuantity(groups, isbn)
      == GroupsQuantity(groups[..|groups| - 1], isbn) + LineQuantity(groups[|groups| - 1].lines, isbn)
  {
    assert groups == groups[..|groups| - 1] + [groups[|groups| - 1]];
    GroupsQuantitySnoc(groups[..|groups| - 1], groups[|groups| - 1], isbn);
  }

  /** The orders written by the loop raise each product's `WaitingIntoInStock`
      by the quantity ordered for it and change no other column. */
  lemma {:induction false} OrdersForInbound(t: Tables, sourceId: int, groups: seq<SupplierGroup>, day: Date, isbn: string)
    requires isbn in t.products
    requires PurchaseOrdersFor(t, sourceId, groups, day).result.Ok?
    ensures var p := PurchaseOrdersFor(t, sourceId, groups, day).tables.products;
      && isbn in p
      && Count(p[isbn].waitingIntoInStock) == Count(t.products[isbn].waitingIntoInStock) + GroupsQuantity(groups, isbn)
      && p[isbn] == t.products[isbn].(waitingIntoInStock := p[isbn].waitingIntoInStock)
    decreases |groups|
  {
    if groups != [] {
      var init := groups[..|groups| - 1];
      var g := groups[|groups| - 1];
      var prev := PurchaseOrdersFor(t, sourceId, init, day);
      OrdersForProductsStep(t, sourceId, groups, day);
      OrdersForInbound(t, sourceId, init, day, isbn);
      GroupsQuantityLast(groups, isbn);
      AddInboundCounts(prev.tables.products, g.lines, isbn);
    }
  }

  /** One step of the loop, as far as `Product` is concerned. */
  lemma OrdersForProductsStep(t: Tables, sourceId: int, groups: seq<SupplierGroup>, day: Date)
    requires groups != [] && PurchaseOrdersFor(t, sourceId, groups, day).result.Ok?
    ensures var prev := PurchaseOrdersFor(t, sourceId, groups[..|groups| - 1], day);
      && prev.result.Ok?
      && PurchaseOrdersFor(t, sourceId, groups, day).tables.products == AddInbound(prev.tables.products, groups[|groups| - 1].lines)
  {
  }

  /** After a successful call every product's `WaitingIntoInStock` has risen
      by exactly the positive shortages recorded for it; nothing else in the
      product row changes. */
  lemma QuotationInbound(t: Tables, sourceId: int, items: seq<ShortageItem>, day: Date, isbn: string)
    requires isbn in t.products
    requires PurchaseQuotation(t, sourceId, items, day).result.Ok?
    ensures var p := PurchaseQuotation(t, sourceId, items, day).tables.products;
      && isbn in p
      && Count(p[isbn].waitingIntoInStock) == Count(t.products[isbn].waitingIntoInStock) + ShortageTotal(items, isbn)
      && p[isbn] == t.products[isbn].(waitingIntoInStock := p[isbn].waitingIntoInStock)
  {
    if items != [] {
      OrdersForInbound(t, sourceId, Grouped(t.products, t.suppliers, items), day, isbn);
      GroupedQuantity(t.products, t.suppliers, items, isbn);
    }
  }

  // -------------------------------------------------- numbers across the loop

  /** Orders kept unchanged keep their numbers in the day's set. */
  lemma MatchingSubset(a: map<int, Order>, b: map<int, Order>, source: int, prefix: string)
    requires forall id :: id in a ==> id in b && b[id] == a[id]
    ensures MatchingNumbers(a, source, prefix) <= MatchingNumbers(b, source, prefix)
  {
    forall n | n in MatchingNumbers(a, source, prefix) ensures n in MatchingNumbers(b, source, prefix) {
      var id :| id in a && a[id].orderSource == source && MatchesPrefix(a[id].orderNumber, prefix) && a[id].orderNumber == n;
      assert id in b && b[id] == a[id];
    }
  }

  /** One purchase order when every purchase number of the day was generated:
      it succeeds, takes the next id, gets a number above every existing one
      of the day, and keeps the numbering invariant. */
  lemma PurchaseStep(t: Tables, sourceId: int, g: SupplierGroup, day: Date)
    requires ValidDate(day) && FreshIds(t) && AllWellFormed(t.orders, Code(Purchase), DatePrefix(day))
    ensures var s := PurchaseOrderFor(t, sourceId, g, day);
      var id := t.nextOrderId;
      && s.result.Ok? && s.result.value.orderId == id
      && s.result.value.supplierId == g.supplierId && s.result.value.supplierName == g.supplierName
      && s.result.value.itemsCount == |g.lines|
      && FreshIds(s.tables) && s.tables.nextOrderId == id + 1
      && id !in t.orders && id in s.tables.orders && s.tables.orders == t.orders[id := s.tables.orders[id]]
      && (forall n :: n in MatchingNumbers(t.orders, Code(Purchase), DatePrefix(day)) ==> n < s.tables.orders[id].orderNumber)
      && s.tables.orders[id].orderNumber in MatchingNumbers(s.tables.orders, Code(Purchase), DatePrefix(day))
      && AllWellFormed(s.tables.orders, Code(Purchase), DatePrefix(day))
  {
    var prefix := DatePrefix(day);
    NextNumberExceedsExisting(t.orders, Code(Purchase), day);
    GeneratedIsWellFormed(t.orders, Code(Purchase), day);
    var number := NextOrderNumber(t.orders, Code(Purchase), day).value;
    var id := t.nextOrderId;
    var header := PurchaseHeader(number, day, g, sourceId);
    WritePurchaseFresh(t, sourceId, g, day, number);
    var s := WritePurchase(t, sourceId, g, day, number);
    assert s == PurchaseOrderFor(t, sourceId, g, day);
    assert s.tables.orders == t.orders[id := header];
    AddWellFormed(t.orders, Code(Purchase), prefix, id, header);
    assert number in MatchingNumbers(s.tables.orders, Code(Purchase), prefix) by {
      assert s.tables.orders[id] == header && MatchesPrefix(number, prefix);
    }
  }

  /** What the loop has written, set against the groups it was given: one
      summary per group, in group order, naming consecutive fresh ids whose
      numbers are generated, rise strictly, and exceed the day's earlier
      purchase numbers; orders that existed before are untouched. */
  ghost predicate CreatedInOrder(t0: Tables, s: Tables, groups: seq<SupplierGroup>, infos: seq<AutoPurchaseOrderInfo>, prefix: string) {
    && |infos| == |groups|
    && s.nextOrderId == t0.nextOrderId + |infos|
    && (forall id :: id in t0.orders ==> id in s.orders && s.orders[id] == t0.orders[id])
    && (forall k :: 0 <= k < |infos| ==>
          && infos[k].orderId == t0.nextOrderId + k && infos[k].orderId in s.orders
          && infos[k].supplierId == groups[k].supplierId && infos[k].supplierName == groups[k].supplierName
          && infos[k].itemsCount == |groups[k].lines|
          && s.orders[infos[k].orderId].orderNumber in MatchingNumbers(s.orders, Code(Purchase), prefix)
          && (forall n :: n in MatchingNumbers(t0.orders, Code(Purchase), prefix) ==> n < s.orders[infos[k].orderId].orderNumber))
    && (forall k, l :: 0 <= k < l < |infos| ==> s.orders[infos[k].orderId].orderNumber < s.orders[infos[l].orderId].orderNumber)
  }

  /** When every purchase number of the day was generated, the loop writes
      one order per group, in order, with strictly increasing numbers above
      all earlier ones, and never fails. */
  lemma {:induction false} PurchaseOrdersInOrder(t: Tables, sourceId: int, groups: seq<SupplierGroup>, day: Date)
    requires ValidDate(day) && FreshIds(t) && AllWellFormed(t.orders, Code(Purchase), DatePrefix(day))
    requires forall k :: 0 <= k < |groups| ==> groups[k].lines != []
    ensures var s := PurchaseOrdersFor(t, sourceId, groups, day);
      && s.result.Ok? && FreshIds(s.tables) && AllWellFormed(s.tables.orders, Code(Purchase), DatePrefix(day))
      && CreatedInOrder(t, s.tables, groups, s.result.value, DatePrefix(day))
    decreases |groups|
  {
    if groups != [] {
      var prefix := DatePrefix(day);
      var init := groups[..|groups| - 1];
      var g := groups[|groups| - 1];
      PurchaseOrdersInOrder(t, sourceId, init, day);
      var prev := PurchaseOrdersFor(t, sourceId, init, day);
      PurchaseStep(prev.tables, sourceId, g, day);
      var step := PurchaseOrderFor(prev.tables, sourceId, g, day);
      var infos := prev.result.value + [step.result.value];
      assert PurchaseOrdersFor(t, sourceId, groups, day) == Step(step.tables, Ok(infos));
      CreatedStep(t, prev.tables, step.tables, groups, prev.result.value, step.result.value, prefix);
    }
  }

  /** The invariant of the loop survives one more purchase order. */
  lemma CreatedStep(t0: Tables, t1: Tables, t2: Tables, groups: seq<SupplierGroup>,
                    infos: seq<AutoPurchaseOrderInfo>, info: AutoPurchaseOrderInfo, prefix: string)
    requires groups != []
    requires CreatedInOrder(t0, t1, groups[..|groups| - 1], infos, prefix)
    requires info.orderId == t1.nextOrderId && t2.nextOrderId == t1.nextOrderId + 1
    requires var g := groups[|groups| - 1];
      info.supplierId == g.supplierId && info.supplierName == g.supplierName && info.itemsCount == |g.lines|
    requires info.orderId !in t1.orders && info.orderId in t2.orders && t2.orders == t1.orders[info.orderId := t2.orders[info.orderId]]
    requires forall n :: n in MatchingNumbers(t1.orders, Code(Purchase), prefix) ==> n < t2.orders[info.orderId].orderNumber
    requires t2.orders[info.orderId].orderNumber in MatchingNumbers(t2.orders, Code(Purchase), prefix)
    ensures CreatedInOrder(t0, t2, groups, infos + [info], prefix)
  {
    var id := info.orderId;
    var all := infos + [info];
    var init := groups[..|groups| - 1];
    MatchingSubset(t0.orders, t1.orders, Code(Purchase), prefix);
    MatchingSubset(t1.orders, t2.orders, Code(Purchase), prefix);
    var m1 := MatchingNumbers(t1.orders, Code(Purchase), prefix);
    var m2 := MatchingNumbers(t2.orders, Code(Purchase), prefix);
    var n := t2.orders[id].orderNumber;
    forall k | 0 <= k < |infos|
      ensures all[k] == infos[k] && groups[k] == init[k] && all[k].orderId != id
      ensures t2.orders[all[k].orderId] == t1.orders[all[k].orderId]
      ensures t1.orders[all[k].orderId].orderNumber in m1
    {
    }
    assert forall x :: x in t0.orders ==> x in t2.orders && t2.orders[x] == t0.orders[x];
    forall k, l | 0 <= k < l < |all|
      ensures t2.orders[all[k].orderId].orderNumber < t2.orders[all[l].orderId].orderNumber
    {
      if l == |infos| {
        assert t2.orders[all[k].orderId].orderNumber in m1;
      }
    }
    forall k | 0 <= k < |all|
      ensures all[k].orderId == t0.nextOrderId + k && all[k].orderId in t2.orders
      ensures all[k].supplierId == groups[k].supplierId && all[k].supplierName == groups[k].supplierName
      ensures all[k].itemsCount == |groups[k].lines|
      ensures t2.orders[all[k].orderId].orderNumber in m2
      ensures forall x :: x in MatchingNumbers(t0.orders, Code(Purchase), prefix) ==> x < t2.orders[all[k].orderId].orderNumber
    {
      if k == |infos| {
        assert all[k] == info;
      }
    }
  }

  /** `generate_purchase_quotation` never fails once every purchase number of
      the day was generated: it writes one order per supplier group, in group
      order, with consecutive ids and strictly increasing numbers above every
      earlier purchase number of the day. */
  lemma QuotationOrders(t: Tables, sourceId: int, items: seq<ShortageItem>, day: Date)
    requires ValidDate(day) && FreshIds(t) && AllWellFormed(t.orders, Code(Purchase), DatePrefix(day))
    ensures var s := PurchaseQuotation(t, sourceId, items, day);
      && s.result.Ok? && FreshIds(s.tables) && AllWellFormed(s.tables.orders, Code(Purchase), DatePrefix(day))
      && CreatedInOrder(t, s.tables, Grouped(t.products, t.suppliers, items), s.result.value, DatePrefix(day))
  {
    if items != [] {
      var groups := Grouped(t.products, t.suppliers, items);
      forall k | 0 <= k < |groups| ensures groups[k].lines != [] {
        GroupedLinesAt(t.products, t.suppliers, items, k);
      }
      PurchaseOrdersInOrder(t, sourceId, Grouped(t.products, t.suppliers, items), day);
    }
  }

  /** The inner loop: one item row per line, each followed by its stock update. */
  method WritePurchaseLines(db: Database, id: int, number: int, lines: seq<PurchaseLine>)
    modifies db`items, db`products
    ensures db.State() == WithLines(old(db.State()), id, number, lines)
  {
    for i := 0 to |lines|
      invariant db.items == old(db.items) + PurchaseItemRows(id, number, lines[..i])
      invariant db.products == AddInbound(old(db.products), lines[..i])
    {
      var line := lines[i];
      assert lines[..i + 1][..i] == lines[..i];
      assert PurchaseItemRows(id, number, lines[..i + 1]) == PurchaseItemRows(id, number, lines[..i]) + [ItemRow(id, number, PurchaseItem(i, line))];
      db.items := db.items + [ItemRow(id, number, PurchaseItem(i, line))];
      var _ := UpdateWaitingIntoInStock(db, line.isbn, line.quantity);
    }
    assert lines[..|lines|] == lines;
  }

  /** The body of the per-supplier loop of `generate_purchase_quotation`. */
  method CreatePurchaseOrder(db: Database, sourceId: int, g: SupplierGroup, day: Date) returns (r: Result<AutoPurchaseOrderInfo, NumberingError>)
    modifies db
    ensures db.State() == PurchaseOrderFor(old(db.State()), sourceId, g, day).tables
    ensures r == PurchaseOrderFor(old(db.State()), sourceId, g, day).result
  {
    ghost var t := db.State();
    var number := NextOrderNumber(db.orders, Code(Purchase), day);
    if number.Err? {
      return Err(number.error);
    }
    var n := number.value;
    var id := db.nextOrderId;
    var header := PurchaseHeader(n, day, g, sourceId);
    db.orders := db.orders[id := header];
    db.nextOrderId := id + 1;
    db.prices := db.prices[id := PriceRow(n, 0, 0, 0, 0)];
    assert db.State() == WithHeader(t, id, n, header);
    WritePurchaseLines(db, id, n, g.lines);
    var _ := CreateOrderReference(db, id, Some(sourceId), None);
    r := Ok(AutoPurchaseOrderInfo(id, FromInt(n), g.supplierId, g.supplierName, |g.lines|));
  }

  /** `generate_purchase_quotation(source_quotation_id, shortage_items)`. */
  method GeneratePurchaseQuotation(db: Database, sourceId: int, items: seq<ShortageItem>, day: Date)
    returns (r: Result<seq<AutoPurchaseOrderInfo>, NumberingError>)
    modifies db
    ensures db.State() == PurchaseQuotation(old(db.State()), sourceId, items, day).tables
    ensures r == PurchaseQuotation(old(db.State()), sourceId, items, day).result
  {
    if items == [] {
      return Ok([]);
    }
    ghost var t0 := db.State();
    var groups := GroupBySupplier(db, items);
    var created := [];
    for i := 0 to |groups|
      invariant PurchaseOrdersFor(t0, sourceId, groups[..i], day) == Step(db.State(), Ok(created))
    {
      PurchaseOrdersForStep(t0, sourceId, groups, day, i);
      var g := groups[i];
      if g.lines == [] {
        continue;
      }
      ghost var before := db.State();
      var step := CreatePurchaseOrder(db, sourceId, g, day);
      assert db.State() == PurchaseOrderFor(before, sourceId, g, day).tables;
      if step.Err? {
        ErrorStops(t0, sourceId, groups, day, i + 1);
        return Err(step.error);
      }
      created := created + [step.value];
    }
    assert groups[..|groups|] == groups;
    r := Ok(created);
  }
}
