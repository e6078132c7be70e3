/** Products waiting to be put on sale (the CheckStore table): their
    confirmation-status codes, the insert of a new one, and the filtered,
    ordered listing. */
module WaitingProductService {
  import opened Wrappers
  import opened Text
  import opened Sorting
  import opened Numbering

  // ---------------------------------------------------------------------------
  // `WAIT_CONFIRM_STATUS` and its reverse

  /** The ordinals of the confirmation statuses: new, updated, archived, ignored. */
  const WaitConfirmStatus: map<string, int> := map["新增" := 0, "更新" := 1, "封存" := 2, "忽略" := 3]

  /** `{v: k for k, v in WAIT_CONFIRM_STATUS.items()}`. */
  function StatusReverse(): (m: map<int, string>)
    ensures m.Keys == WaitConfirmStatus.Values
  {
    map k | k in WaitConfirmStatus :: WaitConfirmStatus[k] := k
  }

  /** The two maps are inverse: a bijection between the four names and 0..3. */
  lemma StatusMapsInverse()
    ensures WaitConfirmStatus.Values == {0, 1, 2, 3}
    ensures StatusReverse().Keys == {0, 1, 2, 3}
    ensures forall name :: name in WaitConfirmStatus ==> StatusReverse()[WaitConfirmStatus[name]] == name
    ensures forall v :: v in StatusReverse() ==>
      StatusReverse()[v] in WaitConfirmStatus && WaitConfirmStatus[StatusReverse()[v]] == v
  {
    var m := StatusReverse();
    assert WaitConfirmStatus["新增"] == 0 && WaitConfirmStatus["更新"] == 1;
    assert WaitConfirmStatus["封存"] == 2 && WaitConfirmStatus["忽略"] == 3;
    assert m[0] == "新增" && m[1] == "更新" && m[2] == "封存" && m[3] == "忽略";
  }

  /** `WAIT_CONFIRM_STATUS_REVERSE.get(status_ordinal, "")`: a NULL or unknown
      ordinal reads as "". */
  function StatusName(ordinal: Option<int>): (name: string)
    ensures ordinal.Some? && ordinal.value in StatusReverse() ==> name == StatusReverse()[ordinal.value]
    ensures (ordinal.None? || ordinal.value !in StatusReverse()) ==> name == ""
  {
    if ordinal.Some? && ordinal.value in StatusReverse() then StatusReverse()[ordinal.value] else ""
  }

  /** Every stored ordinal outside 0..3 is reported as "", and the name of
      each status reads back to its own ordinal. */
  lemma StatusNameOfOrdinal(ordinal: Option<int>)
    ensures StatusName(ordinal) == "" <==> ordinal.None? || !(0 <= ordinal.value <= 3)
    ensures StatusName(ordinal) != "" ==> WaitConfirmStatus[StatusName(ordinal)] == ordinal.value
  {
    StatusMapsInverse();
    if ordinal.Some? && 0 <= ordinal.value <= 3 {
      assert ordinal.value in StatusReverse();
      assert StatusReverse()[ordinal.value] in WaitConfirmStatus;
      assert "" !in WaitConfirmStatus;
    }
  }

  // ---------------------------------------------------------------------------
  // Rows and requests

  /** A CheckStore row, keyed by its ProductCode. */
  datatype WaitingProduct = WaitingProduct(
    productName: string, vendorCode: Option<int>, vendor: string,
    pricing: real, singlePrice: real, batchPrice: real,
    vipPrice1: real, vipPrice2: real, vipPrice3: real,
    unit: string, brand: string, describe: string, remark: string, supplyStatus: string,
    newFirstCategory: Option<string>,
    firstCategoryId: Option<int>, secondCategoryId: Option<int>, thirdCategoryId: Option<int>,
    picture1: Option<string>, picture2: Option<string>, picture3: Option<string>,
    keyinDate: string, updateDate: string, status: Option<int>)

  datatype CreateWaitingProductRequest = CreateWaitingProductRequest(
    productCode: string, productName: string, vendorCode: Option<int>, vendor: string,
    pricing: Option<real>, singlePrice: Option<real>, batchPrice: Option<real>,
    vipPrice1: Option<real>, vipPrice2: Option<real>, vipPrice3: Option<real>,
    unit: Option<string>, brand: Option<string>, describe: Option<string>,
    remark: Option<string>, supplyStatus: Option<string>,
    newFirstCategory: Option<string>,
    firstCategoryId: Option<int>, secondCategoryId: Option<int>, thirdCategoryId: Option<int>,
    picture1: Option<string>, picture2: Option<string>, picture3: Option<string>)

  /** What `create_waiting_product` returns. */
  datatype WaitingProductData = WaitingProductData(productCode: string, productName: string)

  /** One entry of the listing, with the status as its name. */
  datatype WaitingProductDTO = WaitingProductDTO(productCode: string, product: WaitingProduct, status: string)

  datatype WaitingProductError =
    | CodeExists(productCode: string)
    | InvalidStatus(status: string)

  // ---------------------------------------------------------------------------
  // `create_waiting_product`

  /** The row `create_waiting_product` inserts on `date` (`%Y/%m/%d`). */
  function NewRecord(req: CreateWaitingProductRequest, date: string): WaitingProduct {
    WaitingProduct(
      req.productName, req.vendorCode, req.vendor,
      req.pricing.GetOr(0.0), req.singlePrice.GetOr(0.0), req.batchPrice.GetOr(0.0),
      req.vipPrice1.GetOr(0.0), req.vipPrice2.GetOr(0.0), req.vipPrice3.GetOr(0.0),
      OrEmpty(req.unit), OrEmpty(req.brand), OrEmpty(req.describe), OrEmpty(req.remark), OrEmpty(req.supplyStatus),
      None,
      req.firstCategoryId, req.secondCategoryId, req.thirdCategoryId,
      req.picture1, req.picture2, req.picture3,
      date, date, Some(WaitConfirmStatus["新增"]))
  }

  /** A new record is "新增" (ordinal 0) and keyed and updated on the same
      date; a missing price is 0 and a missing text is "", a given one is
      kept. */
  lemma NewRecordFields(req: CreateWaitingProductRequest, date: string)
    ensures var r := NewRecord(req, date);
      && r.status == Some(0) && StatusName(r.status) == "新增"
      && r.keyinDate == date && r.updateDate == date
      && r.productName == req.productName && r.vendorCode == req.vendorCode && r.vendor == req.vendor
      && (r.pricing == if req.pricing.Some? then req.pricing.value else 0.0)
      && (r.singlePrice == if req.singlePrice.Some? then req.singlePrice.value else 0.0)
      && (r.batchPrice == if req.batchPrice.Some? then req.batchPrice.value else 0.0)
      && (r.vipPrice1 == if req.vipPrice1.Some? then req.vipPrice1.value else 0.0)
      && (r.vipPrice2 == if req.vipPrice2.Some? then req.vipPrice2.value else 0.0)
      && (r.vipPrice3 == if req.vipPrice3.Some? then req.vipPrice3.value else 0.0)
      && (Truthy(req.unit) ==> r.unit == req.unit.value) && (!Truthy(req.unit) ==> r.unit == "")
      && (Truthy(req.remark) ==> r.remark == req.remark.value) && (!Truthy(req.remark) ==> r.remark == "")
      && r.newFirstCategory.None?
  {
    StatusMapsInverse();
  }

  // ---------------------------------------------------------------------------
  // `get_waiting_product_list`

  /** The filters of the listing once its arguments are read. */
  datatype ListFilter = ListFilter(vendorCode: Option<int>, nameKeyword: Option<string>, statusOrdinal: Option<int>)

  /** The three optional arguments: a vendor code when not None, a name
      keyword when not blank (stripped), a status when not blank, which must
      then be one of the four names exactly as given. */
  function ReadFilter(vendorCode: Option<int>, productName: Option<string>, status: Option<string>): (r: Result<ListFilter, WaitingProductError>)
    ensures r.Err? <==> status.Some? && !IsBlank(status.value) && status.value !in WaitConfirmStatus
    ensures r.Ok? ==> r.value.vendorCode == vendorCode
    ensures r.Ok? ==> (r.value.nameKeyword.None? <==> productName.None? || IsBlank(productName.value))
    ensures r.Ok? && r.value.nameKeyword.Some? ==> r.value.nameKeyword.value == Strip(productName.value)
    ensures r.Ok? ==> (r.value.statusOrdinal.None? <==> status.None? || IsBlank(status.value))
    ensures r.Ok? && r.value.statusOrdinal.Some? ==> r.value.statusOrdinal.value == WaitConfirmStatus[status.value]
  {
    var keyword := if productName.Some? && productName.value != "" && Strip(productName.value) != ""
      then Some(Strip(productName.value)) else None;
    if status.Some? && status.value != "" && Strip(status.value) != "" then
      if status.value !in WaitConfirmStatus then Err(InvalidStatus(status.value))
      else Ok(ListFilter(vendorCode, keyword, Some(WaitConfirmStatus[status.value])))
    else Ok(ListFilter(vendorCode, keyword, None))
  }

  /** The `WHERE` clause: `VendorCode = %s`, `ProductName LIKE '%kw%'`,
      `Status = %s`, each only when its filter is set. */
  predicate Matches(f: ListFilter, p: WaitingProduct) {
    && (f.vendorCode.Some? ==> p.vendorCode == f.vendorCode)
    && (f.nameKeyword.Some? ==> Contains(p.productName, f.nameKeyword.value))
    && (f.statusOrdinal.Some? ==> p.status == f.statusOrdinal)
  }

  datatype Entry = Entry(code: string, product: WaitingProduct)

  function MatchingEntries(rows: map<string, WaitingProduct>, f: ListFilter): set<Entry> {
    set code | code in rows && Matches(f, rows[code]) :: Entry(code, rows[code])
  }

  /** `ORDER BY ProductCode`. */
  predicate ByCode(a: Entry, b: Entry) {
    LexLess(a.code, b.code)
  }

  lemma {:induction false} ByCodeIsTotal(rows: map<string, WaitingProduct>, f: ListFilter)
    ensures StrictTotalOn(MatchingEntries(rows, f), ByCode)
  {
    var s := MatchingEntries(rows, f);
    forall x | x in s ensures !ByCode(x, x) {
      LexIrreflexive(x.code);
    }
    forall x, y, z | x in s && y in s && z in s && ByCode(x, y) && ByCode(y, z) ensures ByCode(x, z) {
      LexTransitive(x.code, y.code, z.code);
    }
    forall x, y | x in s && y in s && x != y ensures ByCode(x, y) || ByCode(y, x) {
      assert x.code != y.code;
      LexTotal(x.code, y.code);
    }
  }

  /** The rows the query returns, in order. */
  function QueryRows(rows: map<string, WaitingProduct>, f: ListFilter): (r: seq<Entry>)
    ensures forall e :: e in r <==> e.code in rows && e.product == rows[e.code] && Matches(f, e.product)
    ensures forall i, j :: 0 <= i < j < |r| ==> LexLess(r[i].code, r[j].code)
  {
    ByCodeIsTotal(rows, f);
    SortSet(MatchingEntries(rows, f), ByCode)
  }

  /** One row of the listing. */
  function DtoOf(e: Entry): (d: WaitingProductDTO)
    ensures d.productCode == e.code && d.product == e.product && d.status == StatusName(e.product.status)
  {
    WaitingProductDTO(e.code, e.product, StatusName(e.product.status))
  }

  /** The query result turned into listing entries, one per row, in order. */
  function Listing(q: seq<Entry>): (r: seq<WaitingProductDTO>)
    ensures |r| == |q| && forall i :: 0 <= i < |q| ==> r[i] == DtoOf(q[i])
  {
    seq(|q|, i requires 0 <= i < |q| => DtoOf(q[i]))
  }

  /** The listing: every matching product, ordered by code, with its status
      named; an invalid status raises. */
  function List(rows: map<string, WaitingProduct>, vendorCode: Option<int>, productName: Option<string>,
                status: Option<string>): Result<seq<WaitingProductDTO>, WaitingProductError>
  {
    match ReadFilter(vendorCode, productName, status)
    case Err(e) => Err(e)
    case Ok(f) => Ok(Listing(QueryRows(rows, f)))
  }

  /** A listing holds exactly the matching products, strictly ordered by
      code, each with its status name. */
  lemma ListContents(rows: map<string, WaitingProduct>, f: ListFilter)
    ensures var r := Listing(QueryRows(rows, f));
      && (forall code :: code in rows && Matches(f, rows[code]) <==>
            exists i :: 0 <= i < |r| && r[i].productCode == code)
      && (forall i :: 0 <= i < |r| ==>
            && r[i].productCode in rows && r[i].product == rows[r[i].productCode]
            && Matches(f, r[i].product) && r[i].status == StatusName(r[i].product.status))
      && (forall i, j :: 0 <= i < j < |r| ==> LexLess(r[i].productCode, r[j].productCode))
  {
    ListingHasEveryMatch(rows, f);
    ListingRowsMatch(rows, f);
  }

  lemma ListingHasEveryMatch(rows: map<string, WaitingProduct>, f: ListFilter)
    ensures var r := Listing(QueryRows(rows, f));
      forall code :: code in rows && Matches(f, rows[code]) ==>
        exists i :: 0 <= i < |r| && r[i].productCode == code
  {
    var q := QueryRows(rows, f);
    var r := Listing(q);
    forall code | code in rows && Matches(f, rows[code]) ensures exists i :: 0 <= i < |r| && r[i].productCode == code {
      var e := Entry(code, rows[code]);
      assert e in q;
      var i :| 0 <= i < |q| && q[i] == e;
      assert r[i].productCode == code;
    }
  }

  lemma ListingRowsMatch(rows: map<string, WaitingProduct>, f: ListFilter)
    ensures var r := Listing(QueryRows(rows, f));
      forall i :: 0 <= i < |r| ==>
        r[i].productCode in rows && r[i].product == rows[r[i].productCode] && Matches(f, r[i].product)
  {
    var q := QueryRows(rows, f);
    var r := Listing(q);
    forall i | 0 <= i < |r| ensures r[i].productCode in rows && r[i].product == rows[r[i].productCode] && Matches(f, r[i].product) {
      assert q[i] in q;
    }
  }

  // ---------------------------------------------------------------------------
  // The table and the two operations on it

  class CheckStore {
    var rows: map<string, WaitingProduct>

    constructor (rows: map<string, WaitingProduct>)
      ensures this.rows == rows
    {
      this.rows := rows;
    }

    /** `create_waiting_product` on `day`: an existing code raises before any
        insert; otherwise the new record is inserted under its code. */
    method CreateWaitingProduct(req: CreateWaitingProductRequest, day: Date) returns (r: Result<WaitingProductData, WaitingProductError>)
      modifies this
      ensures req.productCode in old(rows) ==> r == Err(CodeExists(req.productCode)) && rows == old(rows)
      ensures req.productCode !in old(rows) ==>
        && r == Ok(WaitingProductData(req.productCode, req.productName))
        && rows == old(rows)[req.productCode := NewRecord(req, SlashDate(day))]
    {
      if req.productCode in rows {
        return Err(CodeExists(req.productCode));
      }
      var currentDate := SlashDate(day);
      rows := rows[req.productCode := NewRecord(req, currentDate)];
      r := Ok(WaitingProductData(req.productCode, req.productName));
    }

    /** `get_waiting_product_list`: reads the filters, runs the query and
        turns each row into a listing entry. */
    method ListWaitingProducts(vendorCode: Option<int>, productName: Option<string>, status: Option<string>)
      returns (r: Result<seq<WaitingProductDTO>, WaitingProductError>)
      ensures r == List(rows, vendorCode, productName, status)
    {
      var filter := BuildFilter(vendorCode, productName, status);
      if filter.Err? {
        return Err(filter.error);
      }
      var results := RunQuery(filter.value);
      r := Ok(results);
    }

    /** The rows of the query, each appended to the results as an entry. */
    method RunQuery(filter: ListFilter) returns (results: seq<WaitingProductDTO>)
      ensures results == Listing(QueryRows(rows, filter))
    {
      var found := QueryRows(rows, filter);
      results := [];
      for i := 0 to |found|
        invariant |results| == i && forall k :: 0 <= k < i ==> results[k] == DtoOf(found[k])
      {
        results := results + [DtoOf(found[i])];
      }
    }
  }

  /** The conditions of `get_waiting_product_list`, added one by one. */
  method BuildFilter(vendorCode: Option<int>, productName: Option<string>, status: Option<string>)
    returns (r: Result<ListFilter, WaitingProductError>)
    ensures r == ReadFilter(vendorCode, productName, status)
  {
    var filter := ListFilter(None, None, None);
    if vendorCode.Some? {
      filter := filter.(vendorCode := vendorCode);
    }
    if productName.Some? && productName.value != "" && Strip(productName.value) != "" {
      filter := filter.(nameKeyword := Some(Strip(productName.value)));
    }
    if status.Some? && status.value != "" && Strip(status.value) != "" {
      if status.value !in WaitConfirmStatus {
        return Err(InvalidStatus(status.value));
      }
      filter := filter.(statusOrdinal := Some(WaitConfirmStatus[status.value]));
    }
    r := Ok(filter);
  }
}
