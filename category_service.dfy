/** The product-category service: a three-layer category tree whose IDs are
    zero-padded numbers unique within a layer, with create, rename and delete
    guarded by the layer, parent, name and usage rules. */
module CategoryService {
  import opened Wrappers
  import opened Decimal
  import opened Text

  /** A row of the ProductCategory table. */
  datatype Category = Category(
    id: string, name: string, layer: int,
    discountQuantity: int, discount: int, preferentialDiscount: int, vipDiscount: int,
    parentId: Option<string>)

  /** A row of store_category: the category of one product in each layer. */
  datatype StoreCategory = StoreCategory(first: Option<string>, second: Option<string>, third: Option<string>)

  datatype CreateCategoryRequest = CreateCategoryRequest(categoryName: string, level: int, parentId: Option<string>)

  datatype UpdateCategoryRequest = UpdateCategoryRequest(categoryId: string, categoryName: Option<string>)

  /** The record the service returns. */
  datatype CategoryData = CategoryData(categoryId: string, categoryName: string, level: int, parentId: Option<string>)

  /** Why an operation raises. */
  datatype CategoryError =
    | InvalidLevel
    | BlankName
    | ParentNotAllowed
    | ParentRequired
    | ParentNotFound(parentId: string, expectedLayer: int)
    | DuplicateName(name: string)
    | NotNumeric(id: string)
    | BlankId
    | NotFound(id: string)
    | HasChildren(children: nat)
    | HasProducts(products: nat)

  /** The category table after an operation, and its result. */
  datatype Change<T> = Change(rows: seq<Category>, result: Result<T, CategoryError>)

  // ---------------------------------------------------------------------------
  // Table invariants

  /** No two rows share an ID within a layer. */
  predicate KeysUnique(rows: seq<Category>) {
    forall i, j :: 0 <= i < j < |rows| ==> !(rows[i].id == rows[j].id && rows[i].layer == rows[j].layer)
  }

  /** No two rows share a name within a layer. */
  predicate NamesUnique(rows: seq<Category>) {
    forall i, j :: 0 <= i < j < |rows| ==> !(rows[i].name == rows[j].name && rows[i].layer == rows[j].layer)
  }

  /** The invariant create, rename and delete are meant to keep. */
  predicate Valid(rows: seq<Category>) {
    KeysUnique(rows) && NamesUnique(rows)
  }

  // ---------------------------------------------------------------------------
  // Table lookups

  /** `WHERE CategoryID = %s AND CategoryLayer = %s` finds a row. */
  predicate HasRow(rows: seq<Category>, id: string, layer: int) {
    exists i :: 0 <= i < |rows| && rows[i].id == id && rows[i].layer == layer
  }

  /** `WHERE CategoryName = %s AND CategoryLayer = %s` finds a row. */
  predicate NameTaken(rows: seq<Category>, name: string, layer: int) {
    exists i :: 0 <= i < |rows| && rows[i].name == name && rows[i].layer == layer
  }

  /** The same, leaving out the rows with the ID `self`. */
  predicate NameTakenByOther(rows: seq<Category>, name: string, layer: int, self: string) {
    exists i :: 0 <= i < |rows| && rows[i].name == name && rows[i].layer == layer && rows[i].id != self
  }

  /** `fetchone()` of `WHERE CategoryID = %s`: the first row with that ID. */
  function FindById(rows: seq<Category>, id: string): (r: Option<nat>)
    ensures r.None? <==> forall j :: 0 <= j < |rows| ==> rows[j].id != id
    ensures r.Some? ==> r.value < |rows| && rows[r.value].id == id
    ensures r.Some? ==> forall j :: 0 <= j < r.value ==> rows[j].id != id
  {
    if rows == [] then None
    else if rows[0].id == id then Some(0)
    else match FindById(rows[1..], id)
      case None => None
      case Some(k) => Some(k + 1)
  }

  /** `COUNT(*) WHERE ParentCategoryID = %s`. */
  function ChildCount(rows: seq<Category>, id: string): (n: nat)
    ensures n == 0 <==> forall j :: 0 <= j < |rows| ==> rows[j].parentId != Some(id)
    ensures n <= |rows|
  {
    if rows == [] then 0
    else (if rows[0].parentId == Some(id) then 1 else 0) + ChildCount(rows[1..], id)
  }

  /** The store_category column of a layer: `FirstCategory_Id`,
      `SecondCategory_Id`, `ThirdCategory_Id`; None for other layers. */
  function StoreColumn(s: StoreCategory, layer: int): Option<string> {
    if layer == 1 then s.first
    else if layer == 2 then s.second
    else if layer == 3 then s.third
    else None
  }

  /** `COUNT(*) FROM store_category WHERE <layer column> = %s`. */
  function UsageCount(store: seq<StoreCategory>, layer: int, id: string): (n: nat)
    ensures n == 0 <==> forall j :: 0 <= j < |store| ==> StoreColumn(store[j], layer) != Some(id)
  {
    if store == [] then 0
    else (if StoreColumn(store[0], layer) == Some(id) then 1 else 0) + UsageCount(store[1..], layer, id)
  }

  // ---------------------------------------------------------------------------
  // `_generate_category_id`

  /** `CAST(CategoryID AS int)` for an ID made of decimal digits; None where
      the cast fails. */
  function IdValue(id: string): (r: Option<nat>)
    ensures r.Some? <==> |id| >= 1 && AllDigits(id)
  {
    if |id| >= 1 && AllDigits(id) then Some(Parse(id)) else None
  }

  /** `MAX(CAST(CategoryID AS int))` over a layer, 0 when the layer is empty. */
  function LayerMax(rows: seq<Category>, layer: int): (r: Result<nat, CategoryError>)
    ensures r.Ok? <==> forall i :: 0 <= i < |rows| && rows[i].layer == layer ==> IdValue(rows[i].id).Some?
    ensures r.Ok? ==> forall i :: 0 <= i < |rows| && rows[i].layer == layer ==> IdValue(rows[i].id).value <= r.value
    ensures (forall i :: 0 <= i < |rows| ==> rows[i].layer != layer) ==> r == Ok(0)
  {
    if rows == [] then Ok(0)
    else
      var rest := LayerMax(rows[1..], layer);
      if rows[0].layer != layer then rest
      else match IdValue(rows[0].id)
        case None => Err(NotNumeric(rows[0].id))
        case Some(v) =>
          if rest.Err? then rest
          else Ok(if v > rest.value then v else rest.value)
  }

  /** A positive maximum is the value of some ID in the layer. */
  lemma {:induction false} LayerMaxAttained(rows: seq<Category>, layer: int) returns (i: nat)
    requires LayerMax(rows, layer).Ok? && LayerMax(rows, layer).value > 0
    ensures i < |rows| && rows[i].layer == layer && IdValue(rows[i].id) == Some(LayerMax(rows, layer).value)
  {
    var rest := LayerMax(rows[1..], layer);
    if rows[0].layer != layer {
      var k := LayerMaxAttained(rows[1..], layer);
      i := k + 1;
    } else if IdValue(rows[0].id).value >= rest.value {
      i := 0;
    } else {
      var k := LayerMaxAttained(rows[1..], layer);
      i := k + 1;
    }
  }

  /** Layers 1 and 2 pad to two digits, layer 3 to three. */
  function IdWidth(layer: int): nat {
    if layer == 1 || layer == 2 then 2 else 3
  }

  /** The next ID of a layer: the maximum plus one, zero-padded. */
  function NextCategoryId(rows: seq<Category>, layer: int): (r: Result<string, CategoryError>)
    ensures r.Err? <==> LayerMax(rows, layer).Err?
  {
    match LayerMax(rows, layer)
    case Err(e) => Err(e)
    case Ok(m) => Ok(Padded(m + 1, IdWidth(layer)))
  }

  /** The new ID reads back as the maximum plus one, is at least as wide as
      the layer's padding, and keeps every digit of the number. */
  lemma NextIdValue(rows: seq<Category>, layer: int)
    requires NextCategoryId(rows, layer).Ok?
    ensures var id := NextCategoryId(rows, layer).value;
      && IdValue(id) == Some(LayerMax(rows, layer).value + 1)
      && |id| == if |FromNat(LayerMax(rows, layer).value + 1)| >= IdWidth(layer)
                 then |FromNat(LayerMax(rows, layer).value + 1)| else IdWidth(layer)
  {
    PaddedParse(LayerMax(rows, layer).value + 1, IdWidth(layer));
  }

  /** An empty layer starts at "01" (layers 1 and 2) or "001" (layer 3). */
  lemma FirstIdOfLayer(rows: seq<Category>, layer: int)
    requires forall i :: 0 <= i < |rows| ==> rows[i].layer != layer
    ensures NextCategoryId(rows, layer) == Ok(if layer == 1 || layer == 2 then "01" else "001")
  {
    assert LayerMax(rows, layer) == Ok(0);
    assert FromNat(1) == "1";
    if layer == 1 || layer == 2 {
      assert Zeros(1) == "0";
      assert Padded(1, 2) == "0" + "1" == "01";
    } else {
      assert Zeros(2) == "00";
      assert Padded(1, 3) == "00" + "1" == "001";
    }
  }

  /** The new ID is not yet used in its layer. */
  lemma NextIdFresh(rows: seq<Category>, layer: int)
    requires NextCategoryId(rows, layer).Ok?
    ensures !HasRow(rows, NextCategoryId(rows, layer).value, layer)
  {
    var id := NextCategoryId(rows, layer).value;
    NextIdValue(rows, layer);
  }

  // ---------------------------------------------------------------------------
  // `create_category`

  /** The row `create_category` inserts, or why it raises. */
  function Create(rows: seq<Category>, req: CreateCategoryRequest): (r: Result<Category, CategoryError>)
    ensures (req.level < 1 || req.level > 3) ==> r == Err(InvalidLevel)
  {
    var name := Strip(req.categoryName);
    if req.level < 1 || req.level > 3 then Err(InvalidLevel)
    else if name == "" then Err(BlankName)
    else if req.level == 1 && req.parentId.Some? then Err(ParentNotAllowed)
    else if req.level > 1 && req.parentId.None? then Err(ParentRequired)
    else if req.level > 1 && !HasRow(rows, req.parentId.value, req.level - 1) then
      Err(ParentNotFound(req.parentId.value, req.level - 1))
    else if NameTaken(rows, name, req.level) then Err(DuplicateName(name))
    else match NextCategoryId(rows, req.level)
      case Err(e) => Err(e)
      case Ok(id) => Ok(Category(id, name, req.level, 0, 1, 1, 1, req.parentId))
  }

  /** What `create_category` returns for the inserted row. */
  function DataOf(c: Category): (d: CategoryData)
    ensures d.categoryId == c.id && d.categoryName == c.name && d.level == c.layer && d.parentId == c.parentId
  {
    CategoryData(c.id, c.name, c.layer, c.parentId)
  }

  /** A create succeeds exactly when the level is 1 to 3, the stripped name is
      not empty, a level-1 category has no parent and a deeper one names an
      existing parent one layer up, the name is new in its layer and the
      layer's IDs are numeric. */
  lemma CreateOkIff(rows: seq<Category>, req: CreateCategoryRequest)
    ensures Create(rows, req).Ok? <==>
      && 1 <= req.level <= 3
      && Strip(req.categoryName) != ""
      && (req.level == 1 <==> req.parentId.None?)
      && (req.level > 1 ==> HasRow(rows, req.parentId.value, req.level - 1))
      && !NameTaken(rows, Strip(req.categoryName), req.level)
      && LayerMax(rows, req.level).Ok?
  {
  }

  /** The inserted row: the stripped name, the level, the parent as given,
      discounts (0, 1, 1, 1) and the next ID of the layer, fresh there. */
  lemma CreatedRow(rows: seq<Category>, req: CreateCategoryRequest)
    requires Create(rows, req).Ok?
    ensures var c := Create(rows, req).value;
      && c.name == Strip(req.categoryName) && c.layer == req.level && c.parentId == req.parentId
      && c.discountQuantity == 0 && c.discount == 1 && c.preferentialDiscount == 1 && c.vipDiscount == 1
      && IdValue(c.id) == Some(LayerMax(rows, req.level).value + 1)
      && !HasRow(rows, c.id, c.layer)
  {
    NextIdValue(rows, req.level);
    NextIdFresh(rows, req.level);
  }

  /** Inserting the created row keeps IDs and names unique per layer. */
  lemma CreateKeepsValid(rows: seq<Category>, req: CreateCategoryRequest)
    requires Valid(rows) && Create(rows, req).Ok?
    ensures Valid(rows + [Create(rows, req).value])
  {
    var c := Create(rows, req).value;
    NextIdFresh(rows, req.level);
    var s := rows + [c];
    forall i, j | 0 <= i < j < |s| ensures !(s[i].id == s[j].id && s[i].layer == s[j].layer) {
      if j == |rows| {
        assert !(rows[i].id == c.id && rows[i].layer == c.layer);
      }
    }
    forall i, j | 0 <= i < j < |s| ensures !(s[i].name == s[j].name && s[i].layer == s[j].layer) {
      if j == |rows| {
        assert !(rows[i].name == c.name && rows[i].layer == c.layer);
      }
    }
  }

  // ---------------------------------------------------------------------------
  // `update_category`

  /** The checks of `update_category`: the row found by ID and the new name
      (None when no name was sent), or why it raises. */
  function UpdatePlan(rows: seq<Category>, req: UpdateCategoryRequest): (r: Result<(Category, Option<string>), CategoryError>)
    ensures r.Ok? ==> r.value.0.id == Strip(req.categoryId) && r.value.0 in rows
    ensures r.Ok? ==> (r.value.1.None? <==> req.categoryName.None?)
    ensures r.Ok? && r.value.1.Some? ==>
      r.value.1.value == Strip(req.categoryName.value) && r.value.1.value != ""
      && !NameTakenByOther(rows, r.value.1.value, r.value.0.layer, r.value.0.id)
  {
    var id := Strip(req.categoryId);
    if id == "" then Err(BlankId)
    else match FindById(rows, id)
      case None => Err(NotFound(id))
      case Some(i) =>
        var existing := rows[i];
        if req.categoryName.None? then Ok((existing, None))
        else
          var name := Strip(req.categoryName.value);
          if name == "" then Err(BlankName)
          else if NameTakenByOther(rows, name, existing.layer, id) then Err(DuplicateName(name))
          else Ok((existing, Some(name)))
  }

  /** `UPDATE ProductCategory SET CategoryName = %s WHERE CategoryID = %s`,
      as written: every row with the ID, whatever its layer. */
  function RenameAll(rows: seq<Category>, id: string, name: string): (s: seq<Category>)
    ensures |s| == |rows|
    ensures forall i :: 0 <= i < |rows| ==> s[i] == if rows[i].id == id then rows[i].(name := name) else rows[i]
  {
    seq(|rows|, i requires 0 <= i < |rows| => if rows[i].id == id then rows[i].(name := name) else rows[i])
  }

  /** The rename scoped to the one category found: its ID in its layer. */
  function RenameInLayer(rows: seq<Category>, id: string, layer: int, name: string): (s: seq<Category>)
    ensures |s| == |rows|
    ensures forall i :: 0 <= i < |rows| ==>
      s[i] == if rows[i].id == id && rows[i].layer == layer then rows[i].(name := name) else rows[i]
  {
    seq(|rows|, i requires 0 <= i < |rows| =>
      if rows[i].id == id && rows[i].layer == layer then rows[i].(name := name) else rows[i])
  }

  /** The returned record: the ID, the new or current name, and the level
      and parent of the row found. */
  function UpdatedData(existing: Category, name: Option<string>): (d: CategoryData)
    ensures d.categoryId == existing.id && d.level == existing.layer && d.parentId == existing.parentId
    ensures d.categoryName == name.GetOr(existing.name)
  {
    CategoryData(existing.id, name.GetOr(existing.name), existing.layer, existing.parentId)
  }

  /** `update_category` as written: the rename reaches every layer. */
  function UpdateAsWritten(rows: seq<Category>, req: UpdateCategoryRequest): (c: Change<CategoryData>)
    ensures c.result.Err? ==> c.rows == rows
  {
    match UpdatePlan(rows, req)
    case Err(e) => Change(rows, Err(e))
    case Ok((existing, None)) => Change(rows, Ok(UpdatedData(existing, None)))
    case Ok((existing, Some(name))) => Change(RenameAll(rows, existing.id, name), Ok(UpdatedData(existing, Some(name))))
  }

  /** `update_category` with the rename limited to the category found. */
  function Update(rows: seq<Category>, req: UpdateCategoryRequest): (c: Change<CategoryData>)
    ensures c.result.Err? ==> c.rows == rows
  {
    match UpdatePlan(rows, req)
    case Err(e) => Change(rows, Err(e))
    case Ok((existing, None)) => Change(rows, Ok(UpdatedData(existing, None)))
    case Ok((existing, Some(name))) =>
      Change(RenameInLayer(rows, existing.id, existing.layer, name), Ok(UpdatedData(existing, Some(name))))
  }

  /** A blank ID, a missing ID, a blank name and a name used by another
      category of the layer raise, in that order; otherwise the record keeps
      the level and parent, and without a name nothing changes. */
  lemma UpdateOutcome(rows: seq<Category>, req: UpdateCategoryRequest)
    ensures IsBlank(req.categoryId) ==> Update(rows, req).result == Err(BlankId)
    ensures !IsBlank(req.categoryId) && FindById(rows, Strip(req.categoryId)).None? ==>
      Update(rows, req).result == Err(NotFound(Strip(req.categoryId)))
    ensures Update(rows, req).result.Ok? ==>
      var existing := rows[FindById(rows, Strip(req.categoryId)).value];
      && Update(rows, req).result.value.level == existing.layer
      && Update(rows, req).result.value.parentId == existing.parentId
      && Update(rows, req).result.value.categoryName == (if req.categoryName.None? then existing.name else Strip(req.categoryName.value))
    ensures req.categoryName.None? ==> Update(rows, req).rows == rows
  {
  }

  /** The scoped rename changes the name of the one category found and no
      other field or row, and keeps IDs and names unique per layer. */
  lemma UpdateKeepsValid(rows: seq<Category>, req: UpdateCategoryRequest)
    requires Valid(rows)
    ensures Valid(Update(rows, req).rows)
  {
    match UpdatePlan(rows, req)
    case Err(_) =>
    case Ok((existing, None)) =>
    case Ok((existing, Some(name))) =>
      var s := RenameInLayer(rows, existing.id, existing.layer, name);
      forall i, j | 0 <= i < j < |s| ensures !(s[i].name == s[j].name && s[i].layer == s[j].layer) {
        assert !(rows[i].id == existing.id && rows[i].layer == existing.layer
          && rows[j].id == existing.id && rows[j].layer == existing.layer);
      }
  }

  /** Categories of two layers sharing the ID "01": a valid table. */
  function SharedIdTable(): seq<Category> {
    [ Category("01", "A", 1, 0, 1, 1, 1, None),
      Category("02", "B", 1, 0, 1, 1, 1, None),
      Category("01", "C", 2, 0, 1, 1, 1, Some("02")),
      Category("02", "D", 2, 0, 1, 1, 1, Some("02")) ]
  }

  lemma SharedIdTableValid()
    ensures Valid(SharedIdTable())
  {
  }

  /** Renaming layer-1 category "01" to "D" as written also renames layer-2
      category "01", which then clashes with layer-2 category "D". */
  lemma UpdateAsWrittenBreaksNames()
    ensures var req := UpdateCategoryRequest("01", Some("D"));
      && Valid(SharedIdTable())
      && UpdateAsWritten(SharedIdTable(), req).result.Ok?
      && !NamesUnique(UpdateAsWritten(SharedIdTable(), req).rows)
      && Valid(Update(SharedIdTable(), req).rows)
  {
    var rows := SharedIdTable();
    var req := UpdateCategoryRequest("01", Some("D"));
    SharedIdTablePlan();
    SharedIdTableValid();
    var s := RenameAll(rows, "01", "D");
    assert s[2].name == "D" && s[3].name == "D" && s[2].layer == s[3].layer;
    UpdateKeepsValid(rows, req);
  }

  /** The checks pass: layer-1 category "01" is found and no other layer-1
      category is named "D". */
  lemma SharedIdTablePlan()
    ensures UpdatePlan(SharedIdTable(), UpdateCategoryRequest("01", Some("D"))) == Ok((SharedIdTable()[0], Some("D")))
  {
    var rows := SharedIdTable();
    StripOfNonSpace("01");
    StripOfNonSpace("D");
    assert FindById(rows, "01") == Some(0);
    assert !NameTakenByOther(rows, "D", 1, "01");
  }

  // ---------------------------------------------------------------------------
  // `delete_category`

  /** The checks of `delete_category`: the row found by ID, or why it raises. */
  function DeletePlan(rows: seq<Category>, store: seq<StoreCategory>, categoryId: string): (r: Result<Category, CategoryError>)
    ensures r.Ok? ==> r.value.id == Strip(categoryId) && r.value in rows
  {
    var id := Strip(categoryId);
    if id == "" then Err(BlankId)
    else match FindById(rows, id)
      case None => Err(NotFound(id))
      case Some(i) =>
        var existing := rows[i];
        var children := ChildCount(rows, id);
        var used := UsageCount(store, existing.layer, id);
        if children > 0 then Err(HasChildren(children))
        else if used > 0 then Err(HasProducts(used))
        else Ok(existing)
  }

  /** `DELETE FROM ProductCategory WHERE CategoryID = %s`, as written: every
      row with the ID, whatever its layer. */
  function RemoveAll(rows: seq<Category>, id: string): (s: seq<Category>)
    ensures forall c :: c in s <==> c in rows && c.id != id
  {
    if rows == [] then []
    else (if rows[0].id == id then [] else [rows[0]]) + RemoveAll(rows[1..], id)
  }

  /** The delete scoped to the one category found: its ID in its layer. */
  function RemoveKey(rows: seq<Category>, id: string, layer: int): (s: seq<Category>)
    ensures forall c :: c in s <==> c in rows && !(c.id == id && c.layer == layer)
    ensures |s| <= |rows|
  {
    if rows == [] then []
    else (if rows[0].id == id && rows[0].layer == layer then [] else [rows[0]]) + RemoveKey(rows[1..], id, layer)
  }

  /** `delete_category` as written. */
  function DeleteAsWritten(rows: seq<Category>, store: seq<StoreCategory>, categoryId: string): (c: Change<()>)
    ensures c.result.Err? ==> c.rows == rows
  {
    match DeletePlan(rows, store, categoryId)
    case Err(e) => Change(rows, Err(e))
    case Ok(existing) => Change(RemoveAll(rows, existing.id), Ok(()))
  }

  /** `delete_category` with the delete limited to the category found. */
  function Delete(rows: seq<Category>, store: seq<StoreCategory>, categoryId: string): (c: Change<()>)
    ensures c.result.Err? ==> c.rows == rows
  {
    match DeletePlan(rows, store, categoryId)
    case Err(e) => Change(rows, Err(e))
    case Ok(existing) => Change(RemoveKey(rows, existing.id, existing.layer), Ok(()))
  }

  /** A delete succeeds only for an existing category that no category names
      as parent and no store_category row uses in its layer's column. */
  lemma DeleteGuards(rows: seq<Category>, store: seq<StoreCategory>, categoryId: string)
    ensures IsBlank(categoryId) ==> Delete(rows, store, categoryId).result == Err(BlankId)
    ensures Delete(rows, store, categoryId).result.Ok? ==>
      var id := Strip(categoryId);
      && id != ""
      && FindById(rows, id).Some?
      && (forall j :: 0 <= j < |rows| ==> rows[j].parentId != Some(id))
      && (forall j :: 0 <= j < |store| ==> StoreColumn(store[j], rows[FindById(rows, id).value].layer) != Some(id))
  {
  }

  /** With unique keys, the scoped delete removes exactly one row: the
      category found. */
  lemma DeleteRemovesOne(rows: seq<Category>, store: seq<StoreCategory>, categoryId: string)
    requires KeysUnique(rows) && Delete(rows, store, categoryId).result.Ok?
    ensures var found := DeletePlan(rows, store, categoryId).value;
      && |Delete(rows, store, categoryId).rows| == |rows| - 1
      && forall c :: c in Delete(rows, store, categoryId).rows <==> c in rows && c != found
  {
    var found := DeletePlan(rows, store, categoryId).value;
    var i :| 0 <= i < |rows| && rows[i] == found;
    RemoveKeyCount(rows, found.id, found.layer, i);
    forall c | c in rows && c.id == found.id && c.layer == found.layer ensures c == found {
      var k :| 0 <= k < |rows| && rows[k] == c;
      assert k == i;
    }
  }

  /** Removing a key that only row `i` holds drops one row. */
  lemma {:induction false} RemoveKeyCount(rows: seq<Category>, id: string, layer: int, i: nat)
    requires i < |rows| && rows[i].id == id && rows[i].layer == layer
    requires forall j :: 0 <= j < |rows| && j != i ==> !(rows[j].id == id && rows[j].layer == layer)
    ensures |RemoveKey(rows, id, layer)| == |rows| - 1
  {
    if i == 0 {
      RemoveKeyNone(rows[1..], id, layer);
    } else {
      RemoveKeyCount(rows[1..], id, layer, i - 1);
    }
  }

  lemma {:induction false} RemoveKeyNone(rows: seq<Category>, id: string, layer: int)
    requires forall j :: 0 <= j < |rows| ==> !(rows[j].id == id && rows[j].layer == layer)
    ensures RemoveKey(rows, id, layer) == rows
  {
    if rows != [] {
      RemoveKeyNone(rows[1..], id, layer);
    }
  }

  /** Removing rows keeps a sub-sequence, so uniqueness survives. */
  lemma {:induction false} RemoveKeyKeepsValid(rows: seq<Category>, id: string, layer: int)
    requires Valid(rows)
    ensures Valid(RemoveKey(rows, id, layer))
  {
    if rows != [] {
      RemoveKeyKeepsValid(rows[1..], id, layer);
      var rest := RemoveKey(rows[1..], id, layer);
      if !(rows[0].id == id && rows[0].layer == layer) {
        var s := [rows[0]] + rest;
        forall j | 1 <= j < |s| ensures !(s[0].id == s[j].id && s[0].layer == s[j].layer)
          && !(s[0].name == s[j].name && s[0].layer == s[j].layer)
        {
          assert s[j] in rest;
          var k :| 0 <= k < |rows[1..]| && rows[1..][k] == s[j];
          assert rows[k + 1] == s[j];
        }
        assert s == RemoveKey(rows, id, layer);
      }
    }
  }

  lemma DeleteKeepsValid(rows: seq<Category>, store: seq<StoreCategory>, categoryId: string)
    requires Valid(rows)
    ensures Valid(Delete(rows, store, categoryId).rows)
  {
    match DeletePlan(rows, store, categoryId)
    case Err(_) =>
    case Ok(existing) => RemoveKeyKeepsValid(rows, existing.id, existing.layer);
  }

  /** Layer-1 categories "01" and "02" and layer-2 category "01" under "02":
      nothing names "01" as parent and no product uses it. */
  function DeleteExampleTable(): seq<Category> {
    [ Category("01", "A", 1, 0, 1, 1, 1, None),
      Category("02", "B", 1, 0, 1, 1, 1, None),
      Category("01", "C", 2, 0, 1, 1, 1, Some("02")) ]
  }

  /** Deleting category "01" as written also deletes layer-2 category "01",
      whose products were never checked; the scoped delete removes one row. */
  lemma DeleteAsWrittenRemovesTwo()
    ensures var rows := DeleteExampleTable();
      && DeleteAsWritten(rows, [], "01").result.Ok?
      && DeleteAsWritten(rows, [], "01").rows == [rows[1]]
      && Delete(rows, [], "01").rows == [rows[1], rows[2]]
  {
    var rows := DeleteExampleTable();
    StripOfNonSpace("01");
    assert FindById(rows, "01") == Some(0);
    assert ChildCount(rows, "01") == 0;
    assert RemoveAll(rows, "01") == [rows[1]];
    assert RemoveKey(rows[2..], "01", 1) == [rows[2]];
  }

  // ---------------------------------------------------------------------------
  // The category tables and the three operations on them

  class CategoryTables {
    var categories: seq<Category>
    var storeCategories: seq<StoreCategory>

    constructor (categories: seq<Category>, storeCategories: seq<StoreCategory>)
      ensures this.categories == categories && this.storeCategories == storeCategories
    {
      this.categories := categories;
      this.storeCategories := storeCategories;
    }

    /** `create_category`: the guards in order, then the insert. */
    method CreateCategory(req: CreateCategoryRequest) returns (r: Result<CategoryData, CategoryError>)
      modifies this`categories
      ensures var c := Create(old(categories), req);
        && (c.Ok? ==> categories == old(categories) + [c.value] && r == Ok(DataOf(c.value)))
        && (c.Err? ==> categories == old(categories) && r == Err(c.error))
      ensures Valid(old(categories)) ==> Valid(categories)
    {
      var name := Strip(req.categoryName);
      if req.level < 1 || req.level > 3 {
        return Err(InvalidLevel);
      }
      if name == "" {
        return Err(BlankName);
      }
      if req.level == 1 && req.parentId.Some? {
        return Err(ParentNotAllowed);
      }
      if req.level > 1 {
        if req.parentId.None? {
          return Err(ParentRequired);
        }
        if !HasRow(categories, req.parentId.value, req.level - 1) {
          return Err(ParentNotFound(req.parentId.value, req.level - 1));
        }
      }
      if NameTaken(categories, name, req.level) {
        return Err(DuplicateName(name));
      }
      var id := NextCategoryId(categories, req.level);
      if id.Err? {
        return Err(id.error);
      }
      var row := Category(id.value, name, req.level, 0, 1, 1, 1, req.parentId);
      if Valid(categories) {
        CreateKeepsValid(categories, req);
      }
      categories := categories + [row];
      r := Ok(DataOf(row));
    }

    /** `update_category`, renaming only the category found. */
    method UpdateCategory(req: UpdateCategoryRequest) returns (r: Result<CategoryData, CategoryError>)
      modifies this`categories
      ensures categories == Update(old(categories), req).rows
      ensures r == Update(old(categories), req).result
      ensures Valid(old(categories)) ==> Valid(categories)
    {
      var id := Strip(req.categoryId);
      if id == "" {
        return Err(BlankId);
      }
      var found := FindById(categories, id);
      if found.None? {
        return Err(NotFound(id));
      }
      var existing := categories[found.value];
      if req.categoryName.None? {
        return Ok(UpdatedData(existing, None));
      }
      var name := Strip(req.categoryName.value);
      if name == "" {
        return Err(BlankName);
      }
      if NameTakenByOther(categories, name, existing.layer, id) {
        return Err(DuplicateName(name));
      }
      if Valid(categories) {
        UpdateKeepsValid(categories, req);
      }
      categories := RenameInLayer(categories, id, existing.layer, name);
      r := Ok(UpdatedData(existing, Some(name)));
    }

    /** `delete_category`, deleting only the category found. */
    method DeleteCategory(categoryId: string) returns (r: Result<(), CategoryError>)
      modifies this`categories
      ensures categories == Delete(old(categories), storeCategories, categoryId).rows
      ensures r == Delete(old(categories), storeCategories, categoryId).result
      ensures Valid(old(categories)) ==> Valid(categories)
    {
      var id := Strip(categoryId);
      if id == "" {
        return Err(BlankId);
      }
      var found := FindById(categories, id);
      if found.None? {
        return Err(NotFound(id));
      }
      var existing := categories[found.value];
      var children := ChildCount(categories, id);
      if children > 0 {
        return Err(HasChildren(children));
      }
      var used := UsageCount(storeCategories, existing.layer, id);
      if used > 0 {
        return Err(HasProducts(used));
      }
      if Valid(categories) {
        DeleteKeepsValid(categories, storeCategories, categoryId);
      }
      categories := RemoveKey(categories, id, existing.layer);
      r := Ok(());
    }
  }
}
