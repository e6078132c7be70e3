/** The checks the quotation endpoint runs on a request before the service
    sees it: a date, a customer id, at least one product, a name and a
    positive quantity per product, and integer price texts. */
module QuotationValidation {
  import opened Wrappers
  import opened Text
  import opened QuotationService

  /** Why `_validate_request` raises; product positions count from 1. */
  datatype ValidationError =
    | BlankOrderDate
    | BlankObjectId
    | NoProducts
    | BlankProductName(position: nat)
    | BadQuantity(position: nat)
    | BadPriceFormat

  /** `not product.product_name or not product.product_name.strip()`. */
  predicate NameMissing(p: ProductItem) {
    p.productName.None? || IsBlank(p.productName.value)
  }

  /** `product.quantity is None or product.quantity <= 0`. */
  predicate QuantityInvalid(p: ProductItem) {
    p.quantity.None? || p.quantity.value <= 0
  }

  /** The check of the product at index `i`: the name first, then the quantity. */
  function ProductProblem(i: nat, p: ProductItem): (r: Option<ValidationError>)
    ensures r.None? <==> !NameMissing(p) && !QuantityInvalid(p)
    ensures r.Some? ==> (r.value.BlankProductName? || r.value.BadQuantity?) && r.value.position == i + 1
    ensures r.Some? ==> (r.value.BlankProductName? <==> NameMissing(p))
  {
    if NameMissing(p) then Some(BlankProductName(i + 1))
    else if QuantityInvalid(p) then Some(BadQuantity(i + 1))
    else None
  }

  /** The index of the first failing product at or after `from`, or
      `|products|` when all of them pass. */
  function FirstBad(products: seq<ProductItem>, from: nat): (k: nat)
    requires from <= |products|
    ensures from <= k <= |products|
    ensures forall j :: from <= j < k ==> ProductProblem(j, products[j]).None?
    ensures k < |products| ==> ProductProblem(k, products[k]).Some?
    decreases |products| - from
  {
    if from == |products| || ProductProblem(from, products[from]).Some? then from
    else FirstBad(products, from + 1)
  }

  /** The product loop: the first failing product decides. */
  function ProductsProblem(products: seq<ProductItem>): Option<ValidationError> {
    var k := FirstBad(products, 0);
    if k < |products| then ProductProblem(k, products[k]) else None
  }

  /** A given price text must be accepted by `int()`. */
  predicate ParsesIfGiven(s: Option<string>) {
    s.None? || ParsePythonInt(s.value).Some?
  }

  /** The price texts the check visits, in its order. */
  function PriceFields(pi: PriceInfo): (fields: seq<Option<string>>)
    ensures |fields| == 4
  {
    [pi.totalPriceNoneTax, pi.tax, pi.discount, pi.totalPriceIncludeTax]
  }

  /** The price-info check: each given field parses as an integer. */
  predicate PricesWellFormed(pi: Option<PriceInfo>) {
    pi.None? || forall k :: 0 <= k < 4 ==> ParsesIfGiven(PriceFields(pi.value)[k])
  }

  /** `_validate_request`: None when every check passes, else the first failure. */
  function Validate(req: CreateQuotationRequest): Option<ValidationError> {
    if IsBlank(req.orderDate) then Some(BlankOrderDate)
    else if IsBlank(req.objectId) then Some(BlankObjectId)
    else if req.products == [] then Some(NoProducts)
    else if ProductsProblem(req.products).Some? then ProductsProblem(req.products)
    else if !PricesWellFormed(req.priceInfo) then Some(BadPriceFormat)
    else None
  }

  /** A request passes exactly when every check holds. */
  lemma ValidIff(req: CreateQuotationRequest)
    ensures Validate(req).None? <==>
      && !IsBlank(req.orderDate) && !IsBlank(req.objectId) && req.products != []
      && (forall i :: 0 <= i < |req.products| ==> !NameMissing(req.products[i]) && !QuantityInvalid(req.products[i]))
      && PricesWellFormed(req.priceInfo)
  {
    if Validate(req).None? {
      forall i | 0 <= i < |req.products| ensures !NameMissing(req.products[i]) && !QuantityInvalid(req.products[i]) {
        assert ProductProblem(i, req.products[i]).None?;
      }
    }
  }

  /** A product error names the first failing product, after the date, the
      customer id and the product list passed. */
  lemma ProductErrorIsFirst(req: CreateQuotationRequest)
    requires Validate(req).Some? && (Validate(req).value.BlankProductName? || Validate(req).value.BadQuantity?)
    ensures !IsBlank(req.orderDate) && !IsBlank(req.objectId)
    ensures var k := Validate(req).value.position - 1;
      && 0 <= k < |req.products|
      && (forall j :: 0 <= j < k ==> !NameMissing(req.products[j]) && !QuantityInvalid(req.products[j]))
      && (Validate(req).value.BlankProductName? ==> NameMissing(req.products[k]))
      && (Validate(req).value.BadQuantity? ==> !NameMissing(req.products[k]) && QuantityInvalid(req.products[k]))
  {
    assert Validate(req) == ProductsProblem(req.products);
    FirstFailure(req.products);
  }

  /** The error of the product loop names the first failing product. */
  lemma FirstFailure(products: seq<ProductItem>)
    requires ProductsProblem(products).Some?
    ensures var k := ProductsProblem(products).value.position - 1;
      && 0 <= k < |products|
      && (forall j :: 0 <= j < k ==> !NameMissing(products[j]) && !QuantityInvalid(products[j]))
      && (ProductsProblem(products).value.BlankProductName? ==> NameMissing(products[k]))
      && (ProductsProblem(products).value.BadQuantity? ==> !NameMissing(products[k]) && QuantityInvalid(products[k]))
  {
    var k := FirstBad(products, 0);
    forall j | 0 <= j < k ensures !NameMissing(products[j]) && !QuantityInvalid(products[j]) {
      assert ProductProblem(j, products[j]).None?;
    }
  }

  /** A request that passes always has valid amounts for the service: an
      empty price text is rejected here, so the service never reads one. */
  lemma ValidRequestHasAmounts(req: CreateQuotationRequest)
    requires Validate(req).None?
    ensures Amounts(req.priceInfo).Some?
    ensures |req.products| >= 1
  {
    assert PricesWellFormed(req.priceInfo);
    WellFormedPricesHaveAmounts(req.priceInfo);
  }

  lemma WellFormedPricesHaveAmounts(pi: Option<PriceInfo>)
    requires PricesWellFormed(pi)
    ensures Amounts(pi).Some?
  {
    if pi.Some? {
      var fields := PriceFields(pi.value);
      AmountOfParsed(fields[0]);
      AmountOfParsed(fields[1]);
      AmountOfParsed(fields[2]);
      AmountOfParsed(fields[3]);
    }
  }

  lemma AmountOfParsed(s: Option<string>)
    requires ParsesIfGiven(s)
    ensures Amount(s).Some?
  {
  }

  /** `int("")` raises, so an empty price text fails the check. */
  lemma EmptyPriceRejected()
    ensures !ParsesIfGiven(Some(""))
  {
    assert Strip("") == "";
  }

  /** `_validate_request`: the date, the customer id, the product list,
      then the product loop and the price loop. */
  method ValidateRequest(req: CreateQuotationRequest) returns (r: Option<ValidationError>)
    ensures r == Validate(req)
  {
    if req.orderDate == "" || Strip(req.orderDate) == "" {
      return Some(BlankOrderDate);
    }
    if req.objectId == "" || Strip(req.objectId) == "" {
      return Some(BlankObjectId);
    }
    if req.products == [] {
      return Some(NoProducts);
    }
    r := CheckProducts(req.products);
    if r.None? && req.priceInfo.Some? {
      r := CheckPrices(PriceFields(req.priceInfo.value));
    }
  }

  /** The product loop: the first product without a name or with a
      quantity below one stops it. */
  method CheckProducts(products: seq<ProductItem>) returns (r: Option<ValidationError>)
    ensures r == ProductsProblem(products)
  {
    for i := 0 to |products|
      invariant forall j :: 0 <= j < i ==> ProductProblem(j, products[j]).None?
    {
      var product := products[i];
      if NameMissing(product) {
        return Some(BlankProductName(i + 1));
      }
      if QuantityInvalid(product) {
        return Some(BadQuantity(i + 1));
      }
    }
    return None;
  }

  /** The price loop: the first given text that `int()` refuses stops it. */
  method CheckPrices(fields: seq<Option<string>>) returns (r: Option<ValidationError>)
    ensures r.None? <==> forall k :: 0 <= k < |fields| ==> ParsesIfGiven(fields[k])
    ensures r.Some? ==> r == Some(BadPriceFormat)
  {
    for j := 0 to |fields|
      invariant forall k :: 0 <= k < j ==> ParsesIfGiven(fields[k])
    {
      if !ParsesIfGiven(fields[j]) {
        assert !forall k :: 0 <= k < |fields| ==> ParsesIfGiven(fields[k]);
        return Some(BadPriceFormat);
      }
    }
    return None;
  }
}
