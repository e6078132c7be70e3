/** The product search query: one LIKE condition chosen by the first filter
    given (ISBN, then firm code, then product-name keywords), with one
    parameter per `%s` placeholder. */
module ProductSearch {
  import opened Wrappers
  import opened Text

  /** The select list and joins of the query, up to its `WHERE`. */
  const SelectJoins: string :=
    "SELECT A.*, B.*, C.*, "
    + "D.InventoryDate, D.KeyinDate, D.UpdateDate, D.ShipmentDate, "
    + "E.*, F.* "
    + "FROM Store A "
    + "INNER JOIN store_price B ON A.id = B.store_id "
    + "INNER JOIN store_category C ON A.id = C.store_id "
    + "INNER JOIN store_date D ON A.id = D.store_id "
    + "INNER JOIN ProductPicture E ON A.id = E.store_id "
    + "INNER JOIN ProductBookCase F ON A.id = F.store_id "

  /** The fixed start every query shares. */
  const SearchBase: string := SelectJoins + "WHERE ("

  const Placeholder: string := "%s"
  const IsbnCondition: string := "A.ISBN LIKE " + Placeholder
  const FirmCodeCondition: string := "A.FirmCode LIKE " + Placeholder
  const NameCondition: string := "A.ProductName LIKE " + Placeholder
  const OrSeparator: string := " OR "

  // ---------------------------------------------------------------------------
  // Placeholders

  /** The number of `%s` placeholders in `s`, read left to right. */
  function Placeholders(s: string): nat {
    if |s| < 2 then 0
    else if s[0] == '%' && s[1] == 's' then 1 + Placeholders(s[2..])
    else Placeholders(s[1..])
  }

  predicate NoPercent(s: string) {
    forall i :: 0 <= i < |s| ==> s[i] != '%'
  }

  lemma {:induction false} PlaceholdersOfNoPercent(s: string)
    requires NoPercent(s)
    ensures Placeholders(s) == 0
  {
    if |s| >= 2 {
      PlaceholdersOfNoPercent(s[1..]);
    }
  }

  /** Counting splits at a boundary no `%s` can straddle. */
  lemma {:induction false} PlaceholdersAppend(a: string, b: string)
    requires a == [] || a[|a| - 1] != '%'
    ensures Placeholders(a + b) == Placeholders(a) + Placeholders(b)
  {
    if a == [] {
      assert a + b == b;
    } else if |a| == 1 {
      if b != [] {
        assert (a + b)[0] == a[0] && (a + b)[1..] == b;
      }
    } else if |a| >= 2 {
      assert (a + b)[0] == a[0] && (a + b)[1] == a[1];
      if a[0] == '%' && a[1] == 's' {
        assert (a + b)[2..] == a[2..] + b;
        PlaceholdersAppend(a[2..], b);
      } else {
        assert (a + b)[1..] == a[1..] + b;
        PlaceholdersAppend(a[1..], b);
      }
    }
  }

  /** A column's LIKE with its one placeholder. */
  lemma OnePlaceholder(column: string)
    requires NoPercent(column)
    ensures Placeholders(column + Placeholder) == 1
  {
    PlaceholdersOfNoPercent(column);
    PlaceholdersAppend(column, Placeholder);
    assert Placeholder[2..] == [];
  }

  lemma ConditionPlaceholders()
    ensures Placeholders(IsbnCondition) == 1
    ensures Placeholders(FirmCodeCondition) == 1
    ensures Placeholders(NameCondition) == 1
    ensures Placeholders(OrSeparator) == 0
  {
    OnePlaceholder("A.ISBN LIKE ");
    OnePlaceholder("A.FirmCode LIKE ");
    OnePlaceholder("A.ProductName LIKE ");
    PlaceholdersOfNoPercent(OrSeparator);
  }

  // ---------------------------------------------------------------------------
  // The query

  /** `sep.join(parts)`. */
  function Join(sep: string, parts: seq<string>): string {
    if parts == [] then ""
    else if |parts| == 1 then parts[0]
    else parts[0] + sep + Join(sep, parts[1..])
  }

  /** `k` copies of the product-name condition. */
  function NameConditions(k: nat): (r: seq<string>)
    ensures |r| == k && forall i :: 0 <= i < k ==> r[i] == NameCondition
  {
    seq(k, i => NameCondition)
  }

  /** `"%kw%"` for each keyword, in order. */
  function KeywordParams(keywords: seq<string>): (r: seq<string>)
    ensures |r| == |keywords| && forall i :: 0 <= i < |keywords| ==> r[i] == "%" + keywords[i] + "%"
  {
    seq(|keywords|, i requires 0 <= i < |keywords| => "%" + keywords[i] + "%")
  }

  /** `product_name.strip().split()`. */
  function Keywords(name: string): seq<string> {
    SplitWhitespace(Strip(name))
  }

  /** The condition and its parameters, chosen by the first truthy filter. */
  function SearchCondition(isbn: Option<string>, firmCode: Option<string>, productName: Option<string>): (string, seq<string>) {
    if Truthy(isbn) then (IsbnCondition, [isbn.value + "%"])
    else if Truthy(firmCode) then (FirmCodeCondition, ["%" + firmCode.value + "%"])
    else if Truthy(productName) then
      var keywords := Keywords(productName.value);
      (Join(OrSeparator, NameConditions(|keywords|)), KeywordParams(keywords))
    else (FirmCodeCondition, ["%%"])
  }

  /** `_build_search_query`: the fixed base, the condition and ")". */
  function SearchQuery(isbn: Option<string>, firmCode: Option<string>, productName: Option<string>): (string, seq<string>) {
    var (condition, params) := SearchCondition(isbn, firmCode, productName);
    (SearchBase + condition + ")", params)
  }

  /** The ISBN wins over everything, then the firm code, then the name; with
      none of them every row matches through `FirmCode LIKE '%%'`. */
  lemma SearchPriority(isbn: Option<string>, firmCode: Option<string>, productName: Option<string>)
    ensures var (q, params) := SearchQuery(isbn, firmCode, productName);
      var (c, _) := SearchCondition(isbn, firmCode, productName);
      && q == SearchBase + c + ")"
      && (Truthy(isbn) ==> c == "A.ISBN LIKE %s" && params == [isbn.value + "%"])
      && (!Truthy(isbn) && Truthy(firmCode) ==> c == "A.FirmCode LIKE %s" && params == ["%" + firmCode.value + "%"])
      && (!Truthy(isbn) && !Truthy(firmCode) && !Truthy(productName) ==> c == "A.FirmCode LIKE %s" && params == ["%%"])
  {
  }

  /** Searching by name gives one condition per keyword of the stripped
      name, joined by " OR ", with the parameters `%kw%` in keyword order. */
  lemma NameSearch(isbn: Option<string>, firmCode: Option<string>, name: string)
    requires !Truthy(isbn) && !Truthy(firmCode) && name != ""
    ensures var (c, params) := SearchCondition(isbn, firmCode, Some(name));
      var keywords := SplitWhitespace(Strip(name));
      && c == Join(OrSeparator, NameConditions(|keywords|))
      && |params| == |keywords|
      && (forall i :: 0 <= i < |keywords| ==> params[i] == "%" + keywords[i] + "%")
      && (forall w :: w in keywords ==> w != [] && NoSpace(w))
      && Concat(keywords) == RemoveSpaces(Strip(name))
  {
    SplitKeepsText(Strip(name));
  }

  lemma {:induction false} JoinedNamePlaceholders(k: nat)
    ensures Placeholders(Join(OrSeparator, NameConditions(k))) == k
  {
    ConditionPlaceholders();
    if k >= 2 {
      JoinedNamePlaceholders(k - 1);
      var rest := Join(OrSeparator, NameConditions(k - 1));
      assert NameConditions(k)[1..] == NameConditions(k - 1);
      assert Join(OrSeparator, NameConditions(k)) == NameCondition + (OrSeparator + rest);
      PlaceholdersAppend(NameCondition, OrSeparator + rest);
      PlaceholdersAppend(OrSeparator, rest);
    } else if k == 1 {
      assert Join(OrSeparator, NameConditions(1)) == NameCondition;
    }
  }

  /** The condition has exactly one `%s` per parameter, whatever is given. */
  lemma PlaceholdersMatchParams(isbn: Option<string>, firmCode: Option<string>, productName: Option<string>)
    ensures var (c, params) := SearchCondition(isbn, firmCode, productName);
      Placeholders(c) == |params|
  {
    ConditionPlaceholders();
    if !Truthy(isbn) && !Truthy(firmCode) && Truthy(productName) {
      JoinedNamePlaceholders(|Keywords(productName.value)|);
    }
  }

  /** A name of spaces only, with no ISBN or firm code, leaves the condition
      empty: the query ends in `WHERE ()` and has no parameters. */
  lemma BlankNameEmptyCondition(isbn: Option<string>, firmCode: Option<string>, name: string)
    requires !Truthy(isbn) && !Truthy(firmCode) && name != "" && IsBlank(name)
    ensures SearchCondition(isbn, firmCode, Some(name)) == ("", [])
    ensures SearchQuery(isbn, firmCode, Some(name)) == (SelectJoins + "WHERE ()", [])
  {
    assert Keywords(name) == [];
    assert "WHERE (" + ")" == "WHERE ()";
    assert SearchBase + "" + ")" == SelectJoins + ("WHERE (" + ")");
  }

  /** `_build_search_query` as the source runs it: the branch, the keyword
      loop appending one condition and one parameter each, the join. */
  method BuildSearchQuery(isbn: Option<string>, firmCode: Option<string>, productName: Option<string>)
    returns (query: string, params: seq<string>)
    ensures (query, params) == SearchQuery(isbn, firmCode, productName)
  {
    query := SearchBase;
    params := [];
    if isbn.Some? && isbn.value != "" {
      query := query + IsbnCondition;
      params := params + [isbn.value + "%"];
      assert params == [isbn.value + "%"];
      assert SearchCondition(isbn, firmCode, productName) == (IsbnCondition, params);
    } else if firmCode.Some? && firmCode.value != "" {
      query := query + FirmCodeCondition;
      params := params + ["%" + firmCode.value + "%"];
      assert params == ["%" + firmCode.value + "%"];
      assert SearchCondition(isbn, firmCode, productName) == (FirmCodeCondition, params);
    } else if productName.Some? && productName.value != "" {
      var keywords := SplitWhitespace(Strip(productName.value));
      var conditions: seq<string> := [];
      for i := 0 to |keywords|
        invariant conditions == NameConditions(i)
        invariant params == KeywordParams(keywords[..i])
      {
        conditions := conditions + [NameCondition];
        params := params + ["%" + keywords[i] + "%"];
        assert keywords[..i + 1] == keywords[..i] + [keywords[i]];
      }
      assert keywords[..|keywords|] == keywords;
      query := query + Join(OrSeparator, conditions);
      assert SearchCondition(isbn, firmCode, productName) == (Join(OrSeparator, conditions), params);
    } else {
      query := query + FirmCodeCondition;
      params := params + ["%%"];
      assert params == ["%%"];
      assert SearchCondition(isbn, firmCode, productName) == (FirmCodeCondition, params);
    }
    query := query + ")";
  }
}
