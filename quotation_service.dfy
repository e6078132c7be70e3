/** Quotation intake: a new customer when the customer is unknown, the
    quotation's number, its header, price, project and shopping rows, its
    items, its reference edges and its pictures. */
module QuotationService {
  import opened Wrappers
  import opened Decimal
  import opened Text
  import opened Schema
  import opened Numbering
  import opened OrderService

  // ------------------------------------------------------------ the request

  /** `CustomerInfoDTO`. */
  datatype CustomerInfo = CustomerInfo(
    objectName: Option<string>, objectNickName: Option<string>, personInCharge: Option<string>,
    contactPerson: Option<string>, telephone1: Option<string>, telephone2: Option<string>,
    cellphone: Option<string>, fax: Option<string>, email: Option<string>, memberId: Option<string>,
    companyAddress: Option<string>, deliveryAddress: Option<string>, invoiceTitle: Option<string>,
    taxIdNumber: Option<string>, invoiceAddress: Option<string>, orderTax: Option<string>,
    receivableDiscount: Option<real>, printPricing: Option<string>, saleModel: Option<string>,
    saleDiscount: Option<real>, remark: Option<string>, receivableDay: Option<int>,
    checkoutByMonth: Option<bool>, storeCode: Option<string>)

  /** `PriceInfoDTO`: the four amounts, as text. */
  datatype PriceInfo = PriceInfo(
    totalPriceNoneTax: Option<string>, tax: Option<string>, discount: Option<string>,
    totalPriceIncludeTax: Option<string>)

  /** `ProjectInfoDTO`. */
  datatype ProjectInfoIn = ProjectInfoIn(
    code: Option<string>, name: Option<string>, quantity: Option<string>, unit: Option<string>,
    priceAmount: Option<string>, totalPriceNoneTax: Option<string>, tax: Option<string>,
    totalPriceIncludeTax: Option<string>, differentPrice: Option<string>)

  /** `ShoppingInfoDTO`. */
  datatype ShoppingInfoIn = ShoppingInfoIn(
    purchaserName: Option<string>, purchaserTelephone: Option<string>, purchaserCellphone: Option<string>,
    purchaserAddress: Option<string>, recipientName: Option<string>, recipientTelephone: Option<string>,
    recipientCellphone: Option<string>, recipientAddress: Option<string>)

  /** `ProductItemDTO`. */
  datatype ProductItem = ProductItem(
    itemNumber: Option<int>, isbn: Option<string>, productName: Option<string>, quantity: Option<int>,
    unit: Option<string>, batchPrice: Option<real>, singlePrice: Option<real>, pricing: Option<real>,
    priceAmount: Option<int>, remark: Option<string>)

  /** `OrderReferenceDTO`. */
  datatype OrderReferences = OrderReferences(quotationIds: Option<seq<int>>, subBillIds: Option<seq<int>>)

  /** `PictureDTO`. */
  datatype Picture = Picture(itemNumber: Option<int>, base64Image: Option<string>)

  /** `CreateQuotationRequest`. */
  datatype CreateQuotationRequest = CreateQuotationRequest(
    orderDate: string, objectId: string, orderNumber: Option<string>, establishSource: Option<string>,
    customerInfo: Option<CustomerInfo>, priceInfo: Option<PriceInfo>, projectInfo: Option<ProjectInfoIn>,
    shoppingInfo: Option<ShoppingInfoIn>, products: seq<ProductItem>, remark: Option<string>,
    cashierRemark: Option<string>, isBorrowed: Option<bool>, isCheckout: Option<bool>,
    orderReferences: Option<OrderReferences>, pictures: Option<seq<Picture>>)

  /** Why `create_quotation` raises. */
  datatype QuotationError =
    | CustomerNotFound
    | BlankCustomerName
    | InvalidOrderNumber
    | InvalidPrice
    | Numbering(cause: NumberingError)

  /** What `create_quotation` returns. */
  datatype QuotationCreated = QuotationCreated(orderId: int, orderNumber: string, orderDate: string)

  /** Python truthiness of an optional flag. */
  predicate IsSet(b: Option<bool>) {
    b == Some(true)
  }

  // ------------------------------------------------------------- customers

  /** `OrderTax`: taxed exactly for "應稅" and "含稅". */
  function OrderTaxOf(s: Option<string>): (r: int)
    ensures r == 1 <==> s == Some("應稅") || s == Some("含稅")
    ensures r == 0 || r == 1
  {
    if Truthy(s) && (s.value == "應稅" || s.value == "含稅") then 1 else 0
  }

  /** `s.upper() == "N"`: the only strings that upper-case to "N" are "N" and "n". */
  predicate UpperIsN(s: string) {
    s == "N" || s == "n"
  }

  /** `PrintPricing`: off exactly when the value upper-cases to "N". */
  function PrintPricingOf(s: Option<string>): (r: int)
    ensures r == 0 <==> s.Some? && UpperIsN(s.value)
    ensures r == 0 || r == 1
  {
    if Truthy(s) && UpperIsN(s.value) then 0 else 1
  }

  /** `SALE_MODEL_MAP`. */
  const SaleModels: map<string, int> := map["單價" := 0, "成本價" := 1, "定價" := 2, "VipPrice1" := 3, "VipPrice2" := 4, "VipPrice3" := 5]

  /** `SALE_MODEL_MAP.get(sale_model, 0)`. */
  function SaleModelOf(s: Option<string>): (r: int)
    ensures s.Some? && s.value in SaleModels ==> r == SaleModels[s.value]
    ensures !(s.Some? && s.value in SaleModels) ==> r == 0
    ensures 0 <= r <= 5
  {
    if s.Some? && s.value in SaleModels then SaleModels[s.value] else 0
  }

  /** The values `_create_customer` writes into `Customer` and its phone,
      address and receive-info rows: text defaults to "", the discounts to
      1.0, the receivable day to 25, and the three codes follow their tables. */
  function CustomerOf(info: CustomerInfo): (c: Customer)
    ensures info.objectName.None? ==> c.objectName == ""
    ensures info.objectName.Some? ==> c.objectName == info.objectName.value
    ensures info.receivableDiscount.None? ==> c.receivableDiscount == 1.0
    ensures info.receivableDiscount.Some? ==> c.receivableDiscount == info.receivableDiscount.value
    ensures info.saleDiscount.None? ==> c.saleDiscount == 1.0
    ensures info.receivableDay.None? ==> c.receivableDay == 25
    ensures info.receivableDay.Some? ==> c.receivableDay == info.receivableDay.value
    ensures c.orderTax == 1 <==> info.orderTax == Some("應稅") || info.orderTax == Some("含稅")
    ensures c.printPricing == 0 <==> info.printPricing == Some("N") || info.printPricing == Some("n")
    ensures info.saleModel == Some("定價") ==> c.saleModel == 2
    ensures info.saleModel.None? ==> c.saleModel == 0
    ensures c.isCheckoutByMonth == 1 <==> info.checkoutByMonth == Some(true)
  {
    Customer(OrEmpty(info.objectName), OrEmpty(info.objectNickName), OrEmpty(info.personInCharge),
      OrEmpty(info.contactPerson), OrEmpty(info.email), OrEmpty(info.memberId), OrEmpty(info.invoiceTitle),
      OrEmpty(info.taxIdNumber), OrderTaxOf(info.orderTax), info.receivableDiscount.GetOr(1.0),
      PrintPricingOf(info.printPricing), SaleModelOf(info.saleModel), info.saleDiscount.GetOr(1.0),
      OrEmpty(info.remark), OrEmpty(info.storeCode),
      OrEmpty(info.telephone1), OrEmpty(info.telephone2), OrEmpty(info.cellphone), OrEmpty(info.fax),
      OrEmpty(info.companyAddress), OrEmpty(info.deliveryAddress), OrEmpty(info.invoiceAddress),
      info.receivableDay.GetOr(25), if IsSet(info.checkoutByMonth) then 1 else 0)
  }

  // --------------------------------------------------------- number and price

  /** A request number that is given and not blank is used, read as an
      integer; otherwise the number comes from the quotation sequence of
      the day. */
  function QuotationNumber(orders: map<int, Order>, requested: Option<string>, day: Date): (r: Result<int, QuotationError>)
    ensures !IsBlank(OrEmpty(requested)) ==>
      (r.Ok? <==> ParsePythonInt(Strip(requested.value)).Some?) && (r.Ok? ==> r.value == ParsePythonInt(Strip(requested.value)).value)
    ensures IsBlank(OrEmpty(requested)) ==> match NextOrderNumber(orders, Code(Quotation), day)
      case Ok(n) => r == Ok(n)
      case Err(e) => r == Err(Numbering(e))
  {
    if requested.Some? && Strip(requested.value) != "" then
      match ParsePythonInt(Strip(requested.value))
      case Some(n) => Ok(n)
      case None => Err(InvalidOrderNumber)
    else
      match NextOrderNumber(orders, Code(Quotation), day)
      case Ok(n) => Ok(n)
      case Err(e) => Err(Numbering(e))
  }

  /** `int(pi.x) if pi and pi.x else 0`: a missing or empty amount is 0. */
  function Amount(s: Option<string>): (r: Option<int>)
    ensures !Truthy(s) ==> r == Some(0)
    ensures Truthy(s) ==> r == ParsePythonInt(s.value)
  {
    if Truthy(s) then ParsePythonInt(s.value) else Some(0)
  }

  /** The four amounts of the price row, or None when one does not parse. */
  function Amounts(pi: Option<PriceInfo>): (r: Option<(int, int, int, int)>)
    ensures pi.None? ==> r == Some((0, 0, 0, 0))
    ensures pi.Some? ==> (r.Some? <==> (Amount(pi.value.totalPriceNoneTax).Some? && Amount(pi.value.tax).Some?
      && Amount(pi.value.discount).Some? && Amount(pi.value.totalPriceIncludeTax).Some?))
  {
    if pi.None? then Some((0, 0, 0, 0))
    else
      var p := pi.value;
      match (Amount(p.totalPriceNoneTax), Amount(p.tax), Amount(p.discount), Amount(p.totalPriceIncludeTax))
      case (Some(a), Some(b), Some(c), Some(d)) => Some((a, b, c, d))
      case _ => None
  }

  // ------------------------------------------------------------- the rows

  /** `EstablishSource`: manual exactly for "人工建立". */
  function EstablishSourceOf(s: Option<string>): (r: int)
    ensures r == ManualEstablished <==> s == Some("人工建立")
    ensures r != ManualEstablished ==> r == SystemEstablished
  {
    if s == Some("人工建立") then ManualEstablished else SystemEstablished
  }

  /** The `Orders` row of the quotation. */
  function QuotationHeader(req: CreateQuotationRequest, objectId: string, number: int): Order {
    Order(number, req.orderDate, Code(Quotation), objectId, IsSet(req.isCheckout), |req.products|,
      EstablishSourceOf(req.establishSource), IsSet(req.isBorrowed), false, OrEmpty(req.remark),
      OrEmpty(req.cashierRemark), 0, None, None, None, None)
  }

  /** The `Orders_ProjectInfo` row: every missing field is "". */
  function ProjectRow(number: int, pj: Option<ProjectInfoIn>): ProjectInfo {
    if pj.None? then ProjectInfo(number, "", "", "", "", "", "", "", "", "")
    else
      var p := pj.value;
      ProjectInfo(number, OrEmpty(p.code), OrEmpty(p.name), OrEmpty(p.quantity), OrEmpty(p.unit),
        OrEmpty(p.priceAmount), OrEmpty(p.totalPriceNoneTax), OrEmpty(p.tax), OrEmpty(p.totalPriceIncludeTax),
        OrEmpty(p.differentPrice))
  }

  /** The `Orders_ShoppingInfo` row: every missing field is "". */
  function ShoppingRow(number: int, si: Option<ShoppingInfoIn>): ShoppingInfo {
    if si.None? then ShoppingInfo(number, "", "", "", "", "", "", "", "")
    else
      var s := si.value;
      ShoppingInfo(number, OrEmpty(s.purchaserName), OrEmpty(s.purchaserTelephone), OrEmpty(s.purchaserCellphone),
        OrEmpty(s.purchaserAddress), OrEmpty(s.recipientName), OrEmpty(s.recipientTelephone),
        OrEmpty(s.recipientCellphone), OrEmpty(s.recipientAddress))
  }

  /** The item written for the product at position `i`: its item number, or
      `i + 1` when it has none; missing values become "" or 0. */
  function QuotationItem(i: nat, p: ProductItem): (r: Item)
    ensures r.itemNumber == Some(if p.itemNumber.Some? then p.itemNumber.value else i + 1)
    ensures r.quantity == Some(if p.quantity.Some? then p.quantity.value else 0)
  {
    Item(Some(p.itemNumber.GetOr(i + 1)), Some(OrEmpty(p.isbn)), Some(OrEmpty(p.productName)),
      Some(p.quantity.GetOr(0)), Some(OrEmpty(p.unit)), Some(p.batchPrice.GetOr(0.0)),
      Some(p.singlePrice.GetOr(0.0)), Some(p.pricing.GetOr(0.0)), Some(p.priceAmount.GetOr(0)),
      Some(OrEmpty(p.remark)))
  }

  /** The `Orders_Items` rows of the products, one per product, in order. */
  function QuotationRows(id: int, number: int, products: seq<ProductItem>): (r: seq<ItemRow>)
    ensures |r| == |products|
    ensures forall i :: 0 <= i < |products| ==> r[i] == ItemRow(id, number, QuotationItem(i, products[i]))
    decreases |products|
  {
    if products == [] then []
    else
      var n := |products| - 1;
      QuotationRows(id, number, products[..n]) + [ItemRow(id, number, QuotationItem(n, products[n]))]
  }

  /** An edge to insert: the quotation or the sub-bill it points at. */
  datatype EdgeTarget = EdgeTarget(orderReferenceId: Option<int>, subBillReferenceId: Option<int>)

  function QuotationEdges(ids: seq<int>): (r: seq<EdgeTarget>)
    ensures |r| == |ids|
    ensures forall i :: 0 <= i < |ids| ==> r[i] == EdgeTarget(Some(ids[i]), None)
  {
    seq(|ids|, i requires 0 <= i < |ids| => EdgeTarget(Some(ids[i]), None))
  }

  function SubBillEdges(ids: seq<int>): (r: seq<EdgeTarget>)
    ensures |r| == |ids|
    ensures forall i :: 0 <= i < |ids| ==> r[i] == EdgeTarget(None, Some(ids[i]))
  {
    seq(|ids|, i requires 0 <= i < |ids| => EdgeTarget(None, Some(ids[i])))
  }

  /** One edge per quotation id, then one per sub-bill id. */
  function EdgeTargets(refs: Option<OrderReferences>): seq<EdgeTarget> {
    if refs.None? then []
    else QuotationEdges(refs.value.quotationIds.GetOr([])) + SubBillEdges(refs.value.subBillIds.GetOr([]))
  }

  /** `create_order_reference` for each target in turn: the edges are
      appended in order, numbered from the next reference identity, and
      nothing else changes. */
  function AddEdges(t: Tables, orderId: int, targets: seq<EdgeTarget>): (r: Tables)
    ensures r == t.(references := r.references, nextReferenceId := r.nextReferenceId)
    ensures r.nextReferenceId == t.nextReferenceId + |targets|
    ensures |r.references| == |t.references| + |targets|
    ensures r.references[..|t.references|] == t.references
    ensures forall i :: 0 <= i < |targets| ==>
      r.references[|t.references| + i] == Reference(t.nextReferenceId + i, orderId, targets[i].orderReferenceId, targets[i].subBillReferenceId)
    decreases |targets|
  {
    if targets == [] then t
    else
      var n := |targets| - 1;
      var before := AddEdges(t, orderId, targets[..n]);
      var r := AddReference(before, orderId, targets[n].orderReferenceId, targets[n].subBillReferenceId);
      assert r.references[..|t.references|] == before.references[..|t.references|];
      r
  }

  lemma AddEdgesSnoc(t: Tables, orderId: int, targets: seq<EdgeTarget>, e: EdgeTarget)
    ensures AddEdges(t, orderId, targets + [e])
      == AddReference(AddEdges(t, orderId, targets), orderId, e.orderReferenceId, e.subBillReferenceId)
  {
    assert (targets + [e])[..|targets|] == targets;
  }

  /** The position of the first comma, if any. */
  function FirstComma(s: string): (r: Option<nat>)
    ensures r.None? <==> forall i :: 0 <= i < |s| ==> s[i] != ','
    ensures r.Some? ==> r.value < |s| && s[r.value] == ',' && forall j :: 0 <= j < r.value ==> s[j] != ','
    decreases |s|
  {
    if s == [] then None
    else if s[0] == ',' then Some(0)
    else match FirstComma(s[1..])
      case None => None
      case Some(k) => Some(k + 1)
  }

  /** `data.split(",", 1)[1] if "," in data else data`. */
  function AfterComma(s: string): (r: string)
    ensures (forall i :: 0 <= i < |s| ==> s[i] != ',') ==> r == s
  {
    match FirstComma(s)
    case None => s
    case Some(k) => s[k + 1..]
  }

  /** A data URL loses its header: the text after the header's comma is kept. */
  lemma DataUrlPayload(header: string, data: string)
    requires forall i :: 0 <= i < |header| ==> header[i] != ','
    ensures AfterComma(header + "," + data) == data
  {
    var s := header + "," + data;
    assert s[|header|] == ',';
    var k := FirstComma(s).value;
    assert k == |header|;
    assert s[k + 1..] == data;
  }

  /** The `Orders_Picture` row of a picture with image data. */
  function PictureRowOf(id: int, p: Picture): PictureRow
    requires Truthy(p.base64Image)
  {
    PictureRow(id, p.itemNumber.GetOr(0), AfterComma(p.base64Image.value), "API")
  }

  /** The `Orders_Picture` rows: pictures without image data are skipped, the
      others are written in order. */
  function PictureRows(id: int, pictures: seq<Picture>): (r: seq<PictureRow>)
    ensures |r| <= |pictures|
    decreases |pictures|
  {
    if pictures == [] then []
    else
      var n := |pictures| - 1;
      PictureRows(id, pictures[..n]) + (if Truthy(pictures[n].base64Image) then [PictureRowOf(id, pictures[n])] else [])
  }

  /** One row `x` is written exactly when some picture with image data gives it. */
  lemma {:induction false} PictureRowMember(id: int, pictures: seq<Picture>, x: PictureRow)
    ensures x in PictureRows(id, pictures) <==>
      exists i :: 0 <= i < |pictures| && Truthy(pictures[i].base64Image) && x == PictureRowOf(id, pictures[i])
    decreases |pictures|
  {
    if pictures != [] {
      var n := |pictures| - 1;
      var init := pictures[..n];
      PictureRowMember(id, init, x);
      var last := if Truthy(pictures[n].base64Image) then [PictureRowOf(id, pictures[n])] else [];
      assert PictureRows(id, pictures) == PictureRows(id, init) + last;
      if x in PictureRows(id, init) {
        var i :| 0 <= i < n && Truthy(init[i].base64Image) && x == PictureRowOf(id, init[i]);
        assert init[i] == pictures[i];
      }
      if exists i :: 0 <= i < |pictures| && Truthy(pictures[i].base64Image) && x == PictureRowOf(id, pictures[i]) {
        var i :| 0 <= i < |pictures| && Truthy(pictures[i].base64Image) && x == PictureRowOf(id, pictures[i]);
        if i < n {
          assert init[i] == pictures[i];
        }
      }
    }
  }

  /** The rows are exactly those of the pictures with image data. */
  lemma PictureRowsMembers(id: int, pictures: seq<Picture>)
    ensures forall x :: x in PictureRows(id, pictures) <==>
      exists i :: 0 <= i < |pictures| && Truthy(pictures[i].base64Image) && x == PictureRowOf(id, pictures[i])
  {
    forall x ensures x in PictureRows(id, pictures) <==>
      exists i :: 0 <= i < |pictures| && Truthy(pictures[i].base64Image) && x == PictureRowOf(id, pictures[i])
    {
      PictureRowMember(id, pictures, x);
    }
  }

  /** When every picture has data, there is one row per picture, in order. */
  lemma {:induction false} PictureRowsAll(id: int, pictures: seq<Picture>)
    requires forall i :: 0 <= i < |pictures| ==> Truthy(pictures[i].base64Image)
    ensures |PictureRows(id, pictures)| == |pictures|
    ensures forall i :: 0 <= i < |pictures| ==> PictureRows(id, pictures)[i] == PictureRowOf(id, pictures[i])
    decreases |pictures|
  {
    if pictures != [] {
      var n := |pictures| - 1;
      var init := pictures[..n];
      assert forall i :: 0 <= i < n ==> init[i] == pictures[i];
      PictureRowsAll(id, init);
      assert PictureRows(id, pictures) == PictureRows(id, init) + [PictureRowOf(id, pictures[n])];
    }
  }

  /** The rows are those of the pictures with image data, and when every
      picture has data, one row per picture in order. */
  lemma PictureRowsMeaning(id: int, pictures: seq<Picture>)
    ensures var r := PictureRows(id, pictures);
      forall x :: x in r <==> exists i :: 0 <= i < |pictures| && Truthy(pictures[i].base64Image) && x == PictureRowOf(id, pictures[i])
    ensures var r := PictureRows(id, pictures);
      (forall i :: 0 <= i < |pictures| ==> Truthy(pictures[i].base64Image)) ==>
        |r| == |pictures| && forall i :: 0 <= i < |pictures| ==> r[i] == PictureRowOf(id, pictures[i])
  {
    PictureRowsMembers(id, pictures);
    if forall i :: 0 <= i < |pictures| ==> Truthy(pictures[i].base64Image) {
      PictureRowsAll(id, pictures);
    }
  }

  // ----------------------------------------------------------- the service

  /** The `Orders`, `Orders_Price`, `Orders_ProjectInfo` and
      `Orders_ShoppingInfo` inserts under the next order id. */
  function WithQuotationHeader(t: Tables, header: Order, price: PriceRow, project: ProjectInfo, shopping: ShoppingInfo): Tables {
    var id := t.nextOrderId;
    t.(orders := t.orders[id := header], nextOrderId := id + 1, prices := t.prices[id := price],
       projectInfos := t.projectInfos[id := project], shoppingInfos := t.shoppingInfos[id := shopping])
  }

  /** The price row from the four amounts. */
  function QuotationPrice(number: int, a: (int, int, int, int)): PriceRow {
    PriceRow(number, a.0, a.1, a.2, a.3)
  }

  /** The writes of one quotation once its number and amounts are known: the
      header, the price, project and shopping rows, the items, the edges and
      the pictures. */
  function WriteQuotation(t: Tables, req: CreateQuotationRequest, objectId: string, number: int,
                          amounts: (int, int, int, int)): Tables
  {
    var id := t.nextOrderId;
    var h := WithQuotationHeader(t, QuotationHeader(req, objectId, number), QuotationPrice(number, amounts),
      ProjectRow(number, req.projectInfo), ShoppingRow(number, req.shoppingInfo));
    var w := h.(items := h.items + QuotationRows(id, number, req.products));
    var e := AddEdges(w, id, EdgeTargets(req.orderReferences));
    e.(pictures := e.pictures + PictureRows(id, req.pictures.GetOr([])))
  }

  /** `create_quotation` once the customer exists: the number, the amounts,
      then the writes. */
  function AfterCustomer(t: Tables, req: CreateQuotationRequest, objectId: string, day: Date): (r: Step<QuotationCreated, QuotationError>)
    ensures r.result.Err? ==> r.tables == t
    ensures r.result == Err(InvalidOrderNumber) <==>
      !IsBlank(OrEmpty(req.orderNumber)) && ParsePythonInt(Strip(req.orderNumber.value)).None?
    ensures r.result == Err(InvalidPrice) <==> QuotationNumber(t.orders, req.orderNumber, day).Ok? && Amounts(req.priceInfo).None?
  {
    match QuotationNumber(t.orders, req.orderNumber, day)
    case Err(e) => Step(t, Err(e))
    case Ok(number) =>
      match Amounts(req.priceInfo)
      case None => Step(t, Err(InvalidPrice))
      case Some(a) => Step(WriteQuotation(t, req, objectId, number, a), Ok(QuotationCreated(t.nextOrderId, FromInt(number), req.orderDate)))
  }

  /** `create_quotation(request)`, with `day` the date `order_date` names. */
  function NewQuotation(t: Tables, req: CreateQuotationRequest, day: Date): (r: Step<QuotationCreated, QuotationError>)
    ensures var objectId := Strip(req.objectId);
      objectId !in t.customers && req.customerInfo.None? ==> r == Step(t, Err(CustomerNotFound))
    ensures var objectId := Strip(req.objectId);
      (objectId !in t.customers && req.customerInfo.Some? && IsBlank(OrEmpty(req.customerInfo.value.objectName)))
        ==> r == Step(t, Err(BlankCustomerName))
  {
    var objectId := Strip(req.objectId);
    if objectId in t.customers then AfterCustomer(t, req, objectId, day)
    else if req.customerInfo.None? then Step(t, Err(CustomerNotFound))
    else if IsBlank(OrEmpty(req.customerInfo.value.objectName)) then Step(t, Err(BlankCustomerName))
    else AfterCustomer(t.(customers := t.customers[objectId := CustomerOf(req.customerInfo.value)]), req, objectId, day)
  }

  // -------------------------------------------------------- what is written

  /** The edges the reference inserts give the new order, numbered from `base`. */
  function EdgeRows(base: int, orderId: int, targets: seq<EdgeTarget>): (r: seq<Reference>)
    ensures |r| == |targets|
    ensures forall i :: 0 <= i < |targets| ==>
      r[i] == Reference(base + i, orderId, targets[i].orderReferenceId, targets[i].subBillReferenceId)
  {
    seq(|targets|, i requires 0 <= i < |targets| =>
      Reference(base + i, orderId, targets[i].orderReferenceId, targets[i].subBillReferenceId))
  }

  /** The customers after the customer step of `create_quotation`. */
  function CustomersAfter(t: Tables, req: CreateQuotationRequest): map<string, Customer>
    requires Strip(req.objectId) in t.customers || req.customerInfo.Some?
  {
    var objectId := Strip(req.objectId);
    if objectId in t.customers then t.customers else t.customers[objectId := CustomerOf(req.customerInfo.value)]
  }

  /** The successful path of `create_quotation`: the customer exists or was
      given with a name, the number and the amounts are valid, and the
      writes follow. */
  lemma NewQuotationOk(t: Tables, req: CreateQuotationRequest, day: Date)
    requires NewQuotation(t, req, day).result.Ok?
    ensures var objectId := Strip(req.objectId);
      && (objectId in t.customers || (req.customerInfo.Some? && !IsBlank(OrEmpty(req.customerInfo.value.objectName))))
      && QuotationNumber(t.orders, req.orderNumber, day).Ok?
      && Amounts(req.priceInfo).Some?
      && var number := QuotationNumber(t.orders, req.orderNumber, day).value;
         NewQuotation(t, req, day)
           == Step(WriteQuotation(t.(customers := CustomersAfter(t, req)), req, objectId, number, Amounts(req.priceInfo).value),
                   Ok(QuotationCreated(t.nextOrderId, FromInt(number), req.orderDate)))
  {
  }

  /** The writes one by one: four rows under the next order id, the item rows
      and edges appended under it, the picture rows appended; customers and
      products untouched. */
  lemma WriteQuotationRows(t: Tables, req: CreateQuotationRequest, objectId: string, number: int, a: (int, int, int, int))
    ensures var s := WriteQuotation(t, req, objectId, number, a); var id := t.nextOrderId;
      var targets := EdgeTargets(req.orderReferences);
      && s.orders == t.orders[id := QuotationHeader(req, objectId, number)]
      && s.nextOrderId == id + 1
      && s.prices == t.prices[id := QuotationPrice(number, a)]
      && s.projectInfos == t.projectInfos[id := ProjectRow(number, req.projectInfo)]
      && s.shoppingInfos == t.shoppingInfos[id := ShoppingRow(number, req.shoppingInfo)]
      && s.items == t.items + QuotationRows(id, number, req.products)
      && s.references == t.references + EdgeRows(t.nextReferenceId, id, targets)
      && s.nextReferenceId == t.nextReferenceId + |targets|
      && s.pictures == t.pictures + PictureRows(id, req.pictures.GetOr([]))
      && s.customers == t.customers && s.products == t.products && s.suppliers == t.suppliers
  {
    var id := t.nextOrderId;
    var h := WithQuotationHeader(t, QuotationHeader(req, objectId, number), QuotationPrice(number, a),
      ProjectRow(number, req.projectInfo), ShoppingRow(number, req.shoppingInfo));
    var w := h.(items := h.items + QuotationRows(id, number, req.products));
    var targets := EdgeTargets(req.orderReferences);
    var e := AddEdges(w, id, targets);
    assert e.references == t.references + EdgeRows(t.nextReferenceId, id, targets) by {
      assert e.references == e.references[..|t.references|] + e.references[|t.references|..];
      assert e.references[|t.references|..] == EdgeRows(t.nextReferenceId, id, targets);
    }
  }

  /** `create_quotation` succeeds with the customer in place: an existing one
      unchanged, a new one inserted from the request. */
  lemma QuotationCustomer(t: Tables, req: CreateQuotationRequest, day: Date)
    requires NewQuotation(t, req, day).result.Ok?
    ensures var s := NewQuotation(t, req, day).tables; var objectId := Strip(req.objectId);
      && objectId in s.customers
      && (objectId in t.customers ==> s.customers == t.customers)
      && (objectId !in t.customers ==>
            req.customerInfo.Some? && !IsBlank(OrEmpty(req.customerInfo.value.objectName))
            && s.customers == t.customers[objectId := CustomerOf(req.customerInfo.value)])
  {
    NewQuotationOk(t, req, day);
    var number := QuotationNumber(t.orders, req.orderNumber, day).value;
    WriteQuotationRows(t.(customers := CustomersAfter(t, req)), req, Strip(req.objectId), number, Amounts(req.priceInfo).value);
  }

  /** The order row and its price, project and shopping rows are filed under
      the returned id, which is the next order id, with the quotation's
      number; a quotation has source type 0, the stripped customer id, one
      item per product and status 0. */
  lemma QuotationHeaderWritten(t: Tables, req: CreateQuotationRequest, day: Date)
    requires NewQuotation(t, req, day).result.Ok?
    ensures var r := NewQuotation(t, req, day); var s := r.tables; var id := t.nextOrderId;
      var number := QuotationNumber(t.orders, req.orderNumber, day).value;
      && QuotationNumber(t.orders, req.orderNumber, day).Ok? && Amounts(req.priceInfo).Some?
      && r.result.value == QuotationCreated(id, FromInt(number), req.orderDate)
      && s.nextOrderId == id + 1
      && s.orders == t.orders[id := s.orders[id]]
      && s.orders[id].orderNumber == number && s.orders[id].orderDate == req.orderDate
      && s.orders[id].orderSource == Code(Quotation) && s.orders[id].objectId == Strip(req.objectId)
      && s.orders[id].numberOfItems == |req.products| && s.orders[id].status == 0
      && (s.orders[id].establishSource == ManualEstablished <==> req.establishSource == Some("人工建立"))
      && s.prices == t.prices[id := QuotationPrice(number, Amounts(req.priceInfo).value)]
      && s.projectInfos == t.projectInfos[id := ProjectRow(number, req.projectInfo)]
      && s.shoppingInfos == t.shoppingInfos[id := ShoppingRow(number, req.shoppingInfo)]
      && s.products == t.products
  {
    NewQuotationOk(t, req, day);
    var number := QuotationNumber(t.orders, req.orderNumber, day).value;
    WriteQuotationRows(t.(customers := CustomersAfter(t, req)), req, Strip(req.objectId), number, Amounts(req.priceInfo).value);
  }

  /** The new quotation's items read back as the products, in order, with
      their defaults. */
  lemma WriteQuotationItems(t: Tables, req: CreateQuotationRequest, objectId: string, number: int, a: (int, int, int, int))
    requires FreshIds(t)
    ensures var s := WriteQuotation(t, req, objectId, number, a); var id := t.nextOrderId;
      && |ItemsOf(s.items, id)| == |req.products|
      && (forall i :: 0 <= i < |req.products| ==> ItemsOf(s.items, id)[i] == QuotationItem(i, req.products[i]))
  {
    WriteQuotationRows(t, req, objectId, number, a);
    ItemsOfNewOrder(t.items, QuotationRows(t.nextOrderId, number, req.products), t.nextOrderId);
  }

  /** No other order gains or loses an item. */
  lemma WriteQuotationKeepsItems(t: Tables, req: CreateQuotationRequest, objectId: string, number: int, a: (int, int, int, int), k: int)
    requires k != t.nextOrderId
    ensures ItemsOf(WriteQuotation(t, req, objectId, number, a).items, k) == ItemsOf(t.items, k)
  {
    WriteQuotationRows(t, req, objectId, number, a);
    ItemsOfOtherOrder(t.items, QuotationRows(t.nextOrderId, number, req.products), t.nextOrderId, k);
  }

  /** Rows appended under an id no older row has read back as exactly those
      rows under that id. */
  lemma ItemsOfNewOrder(older: seq<ItemRow>, rows: seq<ItemRow>, id: int)
    requires forall i :: 0 <= i < |older| ==> older[i].orderId < id
    requires forall i :: 0 <= i < |rows| ==> rows[i].orderId == id
    ensures |ItemsOf(older + rows, id)| == |rows|
    ensures forall i :: 0 <= i < |rows| ==> ItemsOf(older + rows, id)[i] == rows[i].item
  {
    ItemsOfAppend(older, rows, id);
    ItemsOfOther(older, id);
    ItemsOfOwn(rows, id);
  }

  /** Rows appended under one id leave the items of every other id alone. */
  lemma ItemsOfOtherOrder(older: seq<ItemRow>, rows: seq<ItemRow>, id: int, k: int)
    requires forall i :: 0 <= i < |rows| ==> rows[i].orderId == id
    requires k != id
    ensures ItemsOf(older + rows, k) == ItemsOf(older, k)
  {
    ItemsOfAppend(older, rows, k);
    ItemsOfOther(rows, k);
  }

  /** Edges appended under an id no older edge has are exactly its edges. */
  lemma {:induction false} ReferencesOfNew(refs: seq<Reference>, rows: seq<Reference>, orderId: int)
    requires forall i :: 0 <= i < |refs| ==> refs[i].orderId != orderId
    requires forall i :: 0 <= i < |rows| ==> rows[i].orderId == orderId
    ensures GetOrderReferences(refs + rows, orderId) == rows
    decreases |rows|
  {
    if rows == [] {
      assert refs + rows == refs;
      ReferencesOfOther(refs, orderId);
    } else {
      var n := |rows| - 1;
      assert (refs + rows)[..|refs + rows| - 1] == refs + rows[..n];
      ReferencesOfNew(refs, rows[..n], orderId);
      assert rows == rows[..n] + [rows[n]];
    }
  }

  /** The new quotation's edges are one per quotation id, then one per
      sub-bill id, numbered from the next reference identity. */
  lemma QuotationEdgesWritten(t: Tables, req: CreateQuotationRequest, day: Date)
    requires FreshIds(t) && NewQuotation(t, req, day).result.Ok?
    ensures var s := NewQuotation(t, req, day).tables; var id := t.nextOrderId;
      GetOrderReferences(s.references, id) == EdgeRows(t.nextReferenceId, id, EdgeTargets(req.orderReferences))
  {
    NewQuotationOk(t, req, day);
    var number := QuotationNumber(t.orders, req.orderNumber, day).value;
    WriteQuotationRows(t.(customers := CustomersAfter(t, req)), req, Strip(req.objectId), number, Amounts(req.priceInfo).value);
    ReferencesOfNew(t.references, EdgeRows(t.nextReferenceId, t.nextOrderId, EdgeTargets(req.orderReferences)), t.nextOrderId);
  }

  /** The picture rows are appended: one per picture with image data. */
  lemma QuotationPicturesWritten(t: Tables, req: CreateQuotationRequest, day: Date)
    requires NewQuotation(t, req, day).result.Ok?
    ensures var s := NewQuotation(t, req, day).tables;
      s.pictures == t.pictures + PictureRows(t.nextOrderId, req.pictures.GetOr([]))
  {
    NewQuotationOk(t, req, day);
    var number := QuotationNumber(t.orders, req.orderNumber, day).value;
    WriteQuotationRows(t.(customers := CustomersAfter(t, req)), req, Strip(req.objectId), number, Amounts(req.priceInfo).value);
  }

  /** The writes of a quotation only add rows under its own, new id. */
  lemma WriteQuotationExtends(t: Tables, req: CreateQuotationRequest, objectId: string, number: int, a: (int, int, int, int))
    requires FreshIds(t)
    ensures Extends(t, WriteQuotation(t, req, objectId, number, a))
  {
    var id := t.nextOrderId;
    WriteQuotationRows(t, req, objectId, number, a);
    AppendExtends(t, WriteQuotation(t, req, objectId, number, a), QuotationRows(id, number, req.products),
      EdgeRows(t.nextReferenceId, id, EdgeTargets(req.orderReferences)));
  }

  /** An error leaves every table as it was, except that a customer inserted
      before the number or an amount was found invalid stays inserted. */
  lemma QuotationErrorWrites(t: Tables, req: CreateQuotationRequest, day: Date)
    requires NewQuotation(t, req, day).result.Err?
    ensures var s := NewQuotation(t, req, day).tables; var objectId := Strip(req.objectId);
      || s == t
      || (objectId !in t.customers && req.customerInfo.Some? && !IsBlank(OrEmpty(req.customerInfo.value.objectName))
          && s == t.(customers := t.customers[objectId := CustomerOf(req.customerInfo.value)]))
  {
  }

  // ------------------------------------------------------------ the writes

  /** `_create_customer`. */
  method CreateCustomer(db: Database, objectId: string, info: CustomerInfo)
    modifies db`customers
    ensures db.State() == old(db.State()).(customers := old(db.customers)[objectId := CustomerOf(info)])
  {
    var orderTax := 0;
    if info.orderTax.Some? && info.orderTax.value != "" && (info.orderTax.value == "應稅" || info.orderTax.value == "含稅") {
      orderTax := 1;
    }
    var printPricing := 1;
    if info.printPricing.Some? && info.printPricing.value != "" && UpperIsN(info.printPricing.value) {
      printPricing := 0;
    }
    var saleModel := 0;
    if info.saleModel.Some? && info.saleModel.value in SaleModels {
      saleModel := SaleModels[info.saleModel.value];
    }
    var c := Customer(OrEmpty(info.objectName), OrEmpty(info.objectNickName), OrEmpty(info.personInCharge),
      OrEmpty(info.contactPerson), OrEmpty(info.email), OrEmpty(info.memberId), OrEmpty(info.invoiceTitle),
      OrEmpty(info.taxIdNumber), orderTax, info.receivableDiscount.GetOr(1.0), printPricing, saleModel,
      info.saleDiscount.GetOr(1.0), OrEmpty(info.remark), OrEmpty(info.storeCode),
      OrEmpty(info.telephone1), OrEmpty(info.telephone2), OrEmpty(info.cellphone), OrEmpty(info.fax),
      OrEmpty(info.companyAddress), OrEmpty(info.deliveryAddress), OrEmpty(info.invoiceAddress),
      info.receivableDay.GetOr(25), if IsSet(info.checkoutByMonth) then 1 else 0);
    assert orderTax == OrderTaxOf(info.orderTax) && printPricing == PrintPricingOf(info.printPricing);
    assert saleModel == SaleModelOf(info.saleModel);
    db.customers := db.customers[objectId := c];
  }

  /** The four header inserts; the new id is `SCOPE_IDENTITY()`. */
  method InsertQuotationHeader(db: Database, header: Order, price: PriceRow, project: ProjectInfo, shopping: ShoppingInfo)
    returns (id: int)
    modifies db`orders, db`nextOrderId, db`prices, db`projectInfos, db`shoppingInfos
    ensures id == old(db.nextOrderId)
    ensures db.State() == WithQuotationHeader(old(db.State()), header, price, project, shopping)
  {
    id := db.nextOrderId;
    db.orders := db.orders[id := header];
    db.nextOrderId := id + 1;
    db.prices := db.prices[id := price];
    db.projectInfos := db.projectInfos[id := project];
    db.shoppingInfos := db.shoppingInfos[id := shopping];
  }

  /** The item loop. */
  method InsertItems(db: Database, id: int, number: int, products: seq<ProductItem>)
    modifies db`items
    ensures db.State() == old(db.State()).(items := old(db.items) + QuotationRows(id, number, products))
  {
    for i := 0 to |products|
      invariant db.items == old(db.items) + QuotationRows(id, number, products[..i])
    {
      assert products[..i + 1][..i] == products[..i];
      var product := products[i];
      var itemNumber := if product.itemNumber.Some? then product.itemNumber.value else i + 1;
      var item := Item(Some(itemNumber), Some(OrEmpty(product.isbn)), Some(OrEmpty(product.productName)),
        Some(product.quantity.GetOr(0)), Some(OrEmpty(product.unit)), Some(product.batchPrice.GetOr(0.0)),
        Some(product.singlePrice.GetOr(0.0)), Some(product.pricing.GetOr(0.0)), Some(product.priceAmount.GetOr(0)),
        Some(OrEmpty(product.remark)));
      db.items := db.items + [ItemRow(id, number, item)];
    }
    assert products[..|products|] == products;
  }

  /** The loop over the quotation ids, after the edges `done`. */
  method InsertQuotationEdges(db: Database, id: int, ghost t: Tables, ghost done: seq<EdgeTarget>, ids: seq<int>)
    modifies db`references, db`nextReferenceId
    requires db.State() == AddEdges(t, id, done)
    ensures db.State() == AddEdges(t, id, done + QuotationEdges(ids))
  {
    assert done + QuotationEdges(ids[..0]) == done;
    for i := 0 to |ids|
      invariant db.State() == AddEdges(t, id, done + QuotationEdges(ids[..i]))
    {
      var e := EdgeTarget(Some(ids[i]), None);
      assert done + QuotationEdges(ids[..i + 1]) == (done + QuotationEdges(ids[..i])) + [e];
      AddEdgesSnoc(t, id, done + QuotationEdges(ids[..i]), e);
      var _ := CreateOrderReference(db, id, Some(ids[i]), None);
    }
    assert ids[..|ids|] == ids;
  }

  /** The loop over the sub-bill ids, after the edges `done`. */
  method InsertSubBillEdges(db: Database, id: int, ghost t: Tables, ghost done: seq<EdgeTarget>, ids: seq<int>)
    modifies db`references, db`nextReferenceId
    requires db.State() == AddEdges(t, id, done)
    ensures db.State() == AddEdges(t, id, done + SubBillEdges(ids))
  {
    assert done + SubBillEdges(ids[..0]) == done;
    for j := 0 to |ids|
      invariant db.State() == AddEdges(t, id, done + SubBillEdges(ids[..j]))
    {
      var e := EdgeTarget(None, Some(ids[j]));
      assert done + SubBillEdges(ids[..j + 1]) == (done + SubBillEdges(ids[..j])) + [e];
      AddEdgesSnoc(t, id, done + SubBillEdges(ids[..j]), e);
      var _ := CreateOrderReference(db, id, None, Some(ids[j]));
    }
    assert ids[..|ids|] == ids;
  }

  /** The two reference loops: quotation ids first, then sub-bill ids. */
  method InsertEdges(db: Database, id: int, refs: Option<OrderReferences>)
    modifies db`references, db`nextReferenceId
    ensures db.State() == AddEdges(old(db.State()), id, EdgeTargets(refs))
  {
    ghost var t := db.State();
    if refs.None? {
      return;
    }
    var quotationIds := refs.value.quotationIds.GetOr([]);
    var subBillIds := refs.value.subBillIds.GetOr([]);
    InsertQuotationEdges(db, id, t, [], quotationIds);
    assert [] + QuotationEdges(quotationIds) == QuotationEdges(quotationIds);
    InsertSubBillEdges(db, id, t, QuotationEdges(quotationIds), subBillIds);
  }

  /** The picture loop. */
  method InsertPictures(db: Database, id: int, pictures: seq<Picture>)
    modifies db`pictures
    ensures db.State() == old(db.State()).(pictures := old(db.pictures) + PictureRows(id, pictures))
  {
    for i := 0 to |pictures|
      invariant db.pictures == old(db.pictures) + PictureRows(id, pictures[..i])
    {
      assert pictures[..i + 1][..i] == pictures[..i];
      var pic := pictures[i];
      if pic.base64Image.Some? && pic.base64Image.value != "" {
        var data := pic.base64Image.value;
        var comma := FirstComma(data);
        if comma.Some? {
          data := data[comma.value + 1..];
        }
        db.pictures := db.pictures + [PictureRow(id, pic.itemNumber.GetOr(0), data, "API")];
      }
    }
    assert pictures[..|pictures|] == pictures;
  }

  /** `create_quotation(request)`. */
  method CreateQuotation(db: Database, req: CreateQuotationRequest, day: Date)
    returns (r: Result<QuotationCreated, QuotationError>)
    modifies db
    ensures db.State() == NewQuotation(old(db.State()), req, day).tables
    ensures r == NewQuotation(old(db.State()), req, day).result
  {
    var objectId := Strip(req.objectId);
    if objectId !in db.customers {
      if req.customerInfo.None? {
        return Err(CustomerNotFound);
      }
      var name := req.customerInfo.value.objectName;
      if name.None? || name.value == "" || Strip(name.value) == "" {
        return Err(BlankCustomerName);
      }
      CreateCustomer(db, objectId, req.customerInfo.value);
    }
    r := CreateForCustomer(db, req, objectId, day);
  }

  /** The rest of `create_quotation`, once the customer exists. */
  method CreateForCustomer(db: Database, req: CreateQuotationRequest, objectId: string, day: Date)
    returns (r: Result<QuotationCreated, QuotationError>)
    modifies db
    ensures db.State() == AfterCustomer(old(db.State()), req, objectId, day).tables
    ensures r == AfterCustomer(old(db.State()), req, objectId, day).result
  {
    ghost var t := db.State();
    var number: int;
    if req.orderNumber.Some? && req.orderNumber.value != "" && Strip(req.orderNumber.value) != "" {
      var parsed := ParsePythonInt(Strip(req.orderNumber.value));
      if parsed.None? {
        return Err(InvalidOrderNumber);
      }
      number := parsed.value;
    } else {
      var generated := NextOrderNumber(db.orders, Code(Quotation), day);
      if generated.Err? {
        return Err(Numbering(generated.error));
      }
      number := generated.value;
    }
    assert QuotationNumber(t.orders, req.orderNumber, day) == Ok(number);
    var amounts := Amounts(req.priceInfo);
    if amounts.None? {
      return Err(InvalidPrice);
    }
    var header := QuotationHeader(req, objectId, number);
    var id := InsertQuotationHeader(db, header, QuotationPrice(number, amounts.value),
      ProjectRow(number, req.projectInfo), ShoppingRow(number, req.shoppingInfo));
    InsertItems(db, id, number, req.products);
    InsertEdges(db, id, req.orderReferences);
    InsertPictures(db, id, req.pictures.GetOr([]));
    r := Ok(QuotationCreated(id, FromInt(number), req.orderDate));
  }
}
