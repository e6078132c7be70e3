/** The checks the waiting-product endpoint runs on a create request before
    the service sees it: a product code, a name, a vendor code and a vendor
    name, and no negative list, single or batch price. */
module WaitingProductValidation {
  import opened Wrappers
  import opened Text
  import opened WaitingProductService

  /** Why `_validate_create_request` raises, in the order it checks. */
  datatype CreateError =
    | BlankProductCode
    | BlankProductName
    | MissingVendorCode
    | BlankVendor
    | NegativePricing
    | NegativeSinglePrice
    | NegativeBatchPrice

  /** The position of each check in the sequence. */
  function Rank(e: CreateError): (n: nat)
    ensures n < 7
  {
    match e
    case BlankProductCode => 0
    case BlankProductName => 1
    case MissingVendorCode => 2
    case BlankVendor => 3
    case NegativePricing => 4
    case NegativeSinglePrice => 5
    case NegativeBatchPrice => 6
  }

  /** A given price below zero; None and zero pass. */
  predicate Negative(price: Option<real>) {
    price.Some? && price.value < 0.0
  }

  /** Whether the check that raises `e` fails on `req`, each on its own. */
  predicate Fails(req: CreateWaitingProductRequest, e: CreateError) {
    match e
    case BlankProductCode => IsBlank(req.productCode)
    case BlankProductName => IsBlank(req.productName)
    case MissingVendorCode => req.vendorCode.None?
    case BlankVendor => IsBlank(req.vendor)
    case NegativePricing => Negative(req.pricing)
    case NegativeSinglePrice => Negative(req.singlePrice)
    case NegativeBatchPrice => Negative(req.batchPrice)
  }

  /** `_validate_create_request`: None when every check passes, else the
      error of the first one that fails. */
  function Validate(req: CreateWaitingProductRequest): Option<CreateError> {
    if req.productCode == "" || Strip(req.productCode) == "" then Some(BlankProductCode)
    else if req.productName == "" || Strip(req.productName) == "" then Some(BlankProductName)
    else if req.vendorCode.None? then Some(MissingVendorCode)
    else if req.vendor == "" || Strip(req.vendor) == "" then Some(BlankVendor)
    else if req.pricing.Some? && req.pricing.value < 0.0 then Some(NegativePricing)
    else if req.singlePrice.Some? && req.singlePrice.value < 0.0 then Some(NegativeSinglePrice)
    else if req.batchPrice.Some? && req.batchPrice.value < 0.0 then Some(NegativeBatchPrice)
    else None
  }

  /** A request passes exactly when no check fails. */
  lemma ValidIff(req: CreateWaitingProductRequest)
    ensures Validate(req).None? <==> forall e :: !Fails(req, e)
  {
    if Validate(req).None? {
      forall e ensures !Fails(req, e) {
        match e
        case BlankProductCode =>
        case BlankProductName =>
        case MissingVendorCode =>
        case BlankVendor =>
        case NegativePricing =>
        case NegativeSinglePrice =>
        case NegativeBatchPrice =>
      }
    } else {
      assert Fails(req, Validate(req).value);
    }
  }

  /** The first failing check wins: the error reported is one whose check
      fails while every earlier check passes, and that error only. */
  lemma {:induction false} FirstFailureWins(req: CreateWaitingProductRequest, e: CreateError)
    ensures Validate(req) == Some(e) <==>
      Fails(req, e) && forall d :: Rank(d) < Rank(e) ==> !Fails(req, d)
  {
    if Validate(req) == Some(e) {
      forall d | Rank(d) < Rank(e) ensures !Fails(req, d) {
        match d
        case BlankProductCode =>
        case BlankProductName =>
        case MissingVendorCode =>
        case BlankVendor =>
        case NegativePricing =>
        case NegativeSinglePrice =>
        case NegativeBatchPrice =>
      }
    }
    if Fails(req, e) && forall d :: Rank(d) < Rank(e) ==> !Fails(req, d) {
      assert Rank(BlankProductCode) == 0 && Rank(BlankProductName) == 1 && Rank(MissingVendorCode) == 2;
      assert Rank(BlankVendor) == 3 && Rank(NegativePricing) == 4 && Rank(NegativeSinglePrice) == 5;
    }
  }

  /** The VIP prices are never looked at. */
  lemma VipPricesUnchecked(req: CreateWaitingProductRequest, v1: Option<real>, v2: Option<real>, v3: Option<real>)
    ensures Validate(req.(vipPrice1 := v1, vipPrice2 := v2, vipPrice3 := v3)) == Validate(req)
  {
  }

  /** Absent and zero prices are both accepted: with the four required fields
      present, a request whose three checked prices are each None or 0 passes. */
  lemma ZeroOrMissingPricesPass(req: CreateWaitingProductRequest)
    requires !IsBlank(req.productCode) && !IsBlank(req.productName)
    requires req.vendorCode.Some? && !IsBlank(req.vendor)
    requires req.pricing.None? || req.pricing == Some(0.0)
    requires req.singlePrice.None? || req.singlePrice == Some(0.0)
    requires req.batchPrice.None? || req.batchPrice == Some(0.0)
    ensures Validate(req).None?
  {
    ValidIff(req);
    forall e ensures !Fails(req, e) {
      match e
      case BlankProductCode =>
      case BlankProductName =>
      case MissingVendorCode =>
      case BlankVendor =>
      case NegativePricing =>
      case NegativeSinglePrice =>
      case NegativeBatchPrice =>
    }
  }

  /** A request that passes has non-blank identifying texts, a vendor code
      and no negative checked price. */
  lemma PassingRequest(req: CreateWaitingProductRequest)
    requires Validate(req).None?
    ensures !IsBlank(req.productCode) && !IsBlank(req.productName) && !IsBlank(req.vendor)
    ensures req.productCode != "" && req.vendorCode.Some?
    ensures !Negative(req.pricing) && !Negative(req.singlePrice) && !Negative(req.batchPrice)
  {
  }
}
