# ERP backend order core, modelled in Dafny

This project models the core of an ERP backend for a book and stationery
business. The backend is a web service over a SQL Server database. The model covers:

- **The document chain.** A quotation (OrderSource 0) becomes a waiting
  shipment, then a shipment. A purchase order becomes a waiting receipt,
  then a receipt. Each conversion copies the source order's header and
  items into a new order with a fresh number. It overrides quantities per
  ISBN. It records an edge source → new order in `Orders_Reference`, marks
  the source converted, and moves the stock counters.
- **Order numbering.** A number is the day's `YYYYMMDD` prefix followed by
  a four-digit, zero-padded sequence. The sequence is one past the highest
  number of that source type and day, or 1 when that day has none.
- **Stock.** Each product has the counters `InStock`, `WaitingIntoInStock`
  and `WaitingShipmentQuantity`, plus a `SafetyStock`. A NULL counter reads
  as 0. Availability is floored at zero. Requested items are checked
  against availability, and each counter is updated on its own.
- **Automatic purchase orders.** A quotation's shortages are grouped by
  supplier in order of first appearance. One purchase order is written per
  supplier. It only adds rows, and it raises `WaitingIntoInStock` by the
  quantities ordered.
- **Quotation creation.** The request is validated first. A missing
  customer is created. Then the header, price, project and shopping rows,
  the items, the references and the pictures are written.
- **The three-layer product category tree.** Creation assigns ids per
  layer. Renaming and deleting are guarded checks.
- **Waiting products.** Their creation and listing, and the validation of
  the create request.
- **The SQL Server connection settings.** Each server entry's JDBC URL is
  parsed into host, port and database; a missing `Servers` key gives an
  empty list. The application settings fall back to their defaults, and
  saving then loading them gives the same values (over the decoded file
  contents, not the JSON text).
- **The product search query builder.**

The database is a `Tables` value: maps and sequences, one per table. A
`class Database` holds one field per table, and the imperative methods
change those fields. Each method is proved against a function of the old
state. Its lemmas prove the promised properties about that function.
Operations that may fail return a `Result`. When the source stops with an
error after some writes and does not roll them back, the model keeps those
writes too (`Step(tables, result)`). The clock is a parameter: the day of
an operation is passed in.

Modules, in dependency order:

- `Wrappers`: Option and Result.
- `Decimal`: digit strings, `zfill`, `int()` on digits.
- `Text`: Python whitespace, `strip`, `split`, `int()`.
- `Sorting`: `ORDER BY` as a sorted listing of a set.
- `Schema`: rows, tables and the `Database` class.
- `Numbering`: order numbers.
- `OrderService`
- `StockService`
- `PurchaseOrderService`
- `OrderConversionService`
- `QuotationService`
- `QuotationValidation`
- `CategoryService`
- `WaitingProductService`
- `WaitingProductValidation`
- `Config`
- `ProductSearch`

## Model

| member | source | states |
|---|---|---|
| Numbering.DatePrefix | app/services/order_conversion_service.py:48 | the day's prefix is a non-empty string of digits |
| Numbering.DatePrefixShape | app/services/order_conversion_service.py:48 | for a four-digit year the prefix has eight digits and no leading zero |
| Numbering.MaxNumber | app/services/order_conversion_service.py:50-56 | the maximum is absent exactly when no order of that source type has a number starting with the prefix; otherwise it is such a number and bounds all of them |
| Numbering.SequenceDigits | app/services/order_conversion_service.py:59-60 | the text after a matched prefix is made of digits |
| Numbering.NewSequence | app/services/order_conversion_service.py:58-62 | the next sequence is at least 1, and 1 when the day has no number yet |
| Numbering.NewSequenceAfter | app/services/order_conversion_service.py:58-60 | after a maximum the sequence is the value of its digits past the prefix plus one |
| Numbering.PrefixThenSequence | app/services/order_conversion_service.py:64 | a sequence below 10000 fills exactly the four places after the prefix |
| Numbering.FirstNumberOfDay | app/services/order_conversion_service.py:58-64 | the first order of a type on a day is numbered prefix followed by 0001 |
| Numbering.ComposedValue | app/services/order_conversion_service.py:64 | `int(f"{prefix}{seq:04d}")` reads back as the prefix shifted past the padded sequence, and its decimal text is that string |
| Numbering.GeneratedIsWellFormed | app/services/order_conversion_service.py:40-64 | every generated number is the day's prefix followed by a sequence of at least four digits |
| Numbering.ComposedIsWellFormed | app/services/order_conversion_service.py:64 | prefix plus padded sequence is a well-formed number of that prefix |
| Numbering.NextNumberExceedsExisting | app/services/order_conversion_service.py:40-64 | when every number of the day was generated, the next one is larger than each of them, and it is the maximum plus one while the sequence stays below 9999 |
| Numbering.SuccessorOfWellFormed | app/services/order_conversion_service.py:59-64 | the number generated after a well-formed maximum exceeds it |
| Numbering.SuccessorIsNext | app/services/order_conversion_service.py:59-64 | below sequence 9999 the next number is the maximum plus one |
| Numbering.WellFormedValue | app/services/order_conversion_service.py:59-60 | a well-formed number is the prefix's value shifted past its sequence digits |
| Numbering.AddWellFormed | app/services/order_conversion_service.py:64 | adding an order whose number is well formed keeps every number of the day well formed |
| Decimal.ZFill | app/services/category_service.py:55-58 | `zfill` pads to the width and leaves a string at least that long unchanged |
| Decimal.Padded | app/services/order_conversion_service.py:64 | `{seq:04d}` is digits, at least four long, and equal to `str(seq).zfill(4)` |
| Decimal.PaddedParse | app/services/category_service.py:52-58 | a zero-padded number reads back as the number |
| Decimal.ParseFromNat | app/services/order_conversion_service.py:59-60 | `int(str(n)) == n` |
| Decimal.FromNatParse | app/services/order_conversion_service.py:59 | a digit string without leading zero is `str` of its value |
| Text.StripShape | app/services/category_service.py:65 | `strip()` keeps the middle of the string, drops only whitespace, and what it keeps neither starts nor ends with whitespace |
| Text.BlankIffAllSpace | app/routers/waiting_product.py:23-30 | `not s or not s.strip()` holds exactly for strings of whitespace only |
| Text.SplitWhitespace | app/services/product_service.py:52 | `split()` yields non-empty words without whitespace |
| Text.SplitKeepsText | app/services/product_service.py:52 | the words of `split()`, joined, are exactly the non-space characters, in order |
| Text.SplitBlank | app/services/product_service.py:52 | a whitespace-only string has no words |
| Text.ParsePythonInt | app/services/quotation_service.py:185-186 | `int(s)` succeeds exactly on an optionally signed run of digit groups between whitespace |
| Text.ParseIntRoundTrip | app/services/quotation_service.py:185-186 | `int(str(i)) == i` for every integer |
| CategoryService.FindById | app/services/category_service.py:127-139 | the row `fetchone()` returns for an ID is the first row with that ID; there is none exactly when no row carries the ID |
| CategoryService.ChildCount | app/services/category_service.py:203-212 | the child count is zero exactly when no category names the ID as its parent |
| CategoryService.UsageCount | app/services/category_service.py:214-227 | the product count is zero exactly when no store_category row holds the ID in the column of the category's layer |
| CategoryService.IdValue | app/services/category_service.py:45 | `CAST(CategoryID AS int)` on the IDs the service writes: a value exactly for a non-empty string of ASCII decimal digits, which is then read as a number (the wider SQL Server cast is under Left out) |
| CategoryService.LayerMax | app/services/category_service.py:43-52 | the maximum bounds every ID of the layer, is 0 for an empty layer, and fails exactly when some ID of the layer is not such a digit string (see Left out) |
| CategoryService.LayerMaxAttained | app/services/category_service.py:45-52 | a positive maximum is the value of an ID that some row of the layer holds |
| CategoryService.NextCategoryId | app/services/category_service.py:36-58 | the next ID exists exactly when the layer's maximum can be computed |
| CategoryService.NextIdValue | app/services/category_service.py:52-58 | the next ID reads back as the maximum plus one and has at least two digits (layers 1 and 2) or three (layer 3) |
| CategoryService.FirstIdOfLayer | app/services/category_service.py:39-40 | the first ID of an empty layer is "01" for layers 1 and 2 and "001" for layer 3 |
| CategoryService.NextIdFresh | app/services/category_service.py:41 | the next ID is not yet used in its layer |
| CategoryService.Create | app/services/category_service.py:68-70 | a level outside 1 to 3 is rejected before anything else |
| CategoryService.DataOf | app/services/category_service.py:119-124 | the returned record carries the inserted row's ID, name, level and parent |
| CategoryService.CreateOkIff | app/services/category_service.py:64-92 | a create succeeds exactly when the level is 1 to 3, the stripped name is non-empty, only level 1 has no parent, a parent exists one layer up, the name is new in its layer and the layer's IDs are numeric |
| CategoryService.CreatedRow | app/services/category_service.py:94-112 | the inserted row has the stripped name, the level, the parent as given, discounts 0, 1, 1, 1 and the layer's next ID |
| CategoryService.CreateKeepsValid | app/services/category_service.py:88-112 | appending the created row keeps IDs and names unique within each layer |
| CategoryService.UpdatePlan | app/services/category_service.py:145-167 | a successful check yields a row of the table with the stripped ID and, when a name was sent, a non-empty stripped name no other category of that layer uses |
| CategoryService.RenameAll | app/services/category_service.py:170-174 | the UPDATE as written renames every row with the ID, in any layer, and leaves the others alone |
| CategoryService.RenameInLayer | app/services/category_service.py:170-174 | the corrected UPDATE renames only the row with the ID in the found category's layer |
| CategoryService.UpdatedData | app/services/category_service.py:180-189 | the record keeps the found row's ID, level and parent and has the new name or else the current one |
| CategoryService.UpdateAsWritten | app/services/category_service.py:142-189 | update as written; a failed check changes no row |
| CategoryService.Update | app/services/category_service.py:142-189 | update with the rename scoped to the found category; a failed check changes no row |
| CategoryService.UpdateOutcome | app/services/category_service.py:145-189 | a blank ID and an unknown ID raise in that order; success keeps the level and parent and returns the stripped new name or the current one; no name changes nothing |
| CategoryService.UpdateKeepsValid | app/services/category_service.py:158-174 | the scoped rename keeps IDs and names unique within each layer |
| CategoryService.SharedIdTableValid | app/services/category_service.py:41 | two layers may share an ID in a valid table |
| CategoryService.SharedIdTablePlan | app/services/category_service.py:150-167 | renaming layer-1 category "01" to "D" passes every check in that table |
| CategoryService.UpdateAsWrittenBreaksNames | app/services/category_service.py:170-174 | the UPDATE as written also renames the layer-2 row "01" and makes two layer-2 names equal; the scoped update keeps the table valid |
| CategoryService.DeletePlan | app/services/category_service.py:195-227 | a successful check yields a row of the table with the stripped ID |
| CategoryService.RemoveAll | app/services/category_service.py:229-234 | the DELETE as written keeps exactly the rows whose ID differs |
| CategoryService.RemoveKey | app/services/category_service.py:229-234 | the corrected DELETE keeps exactly the rows that are not the ID in the found layer |
| CategoryService.DeleteAsWritten | app/services/category_service.py:192-234 | delete as written; a failed check changes no row |
| CategoryService.Delete | app/services/category_service.py:192-234 | delete scoped to the found category; a failed check changes no row |
| CategoryService.DeleteGuards | app/services/category_service.py:195-227 | a blank ID raises; a successful delete had an existing category that no category has as parent and no product uses in its layer's column |
| CategoryService.DeleteRemovesOne | app/services/category_service.py:229-234 | with unique keys the scoped delete removes exactly the found row and no other |
| CategoryService.DeleteKeepsValid | app/services/category_service.py:229-234 | the scoped delete keeps IDs and names unique within each layer |
| CategoryService.DeleteAsWrittenRemovesTwo | app/services/category_service.py:229-234 | deleting "01" as written also removes the layer-2 row "01", whose products were never checked; the scoped delete removes one row |
| CategoryService.CategoryTables.CreateCategory | app/services/category_service.py:61-124 | the table gains exactly the created row and the method returns its record, or nothing changes and the error is returned; validity is kept |
| CategoryService.CategoryTables.UpdateCategory | app/services/category_service.py:142-189 | the table and the result are those of the scoped update; validity is kept |
| CategoryService.CategoryTables.DeleteCategory | app/services/category_service.py:192-239 | the table and the result are those of the scoped delete; validity is kept |
| Config.HasPrefix | app/database/config.py:38-39 | a prefix is never longer than the string it starts |
| Config.HasPrefixIff | app/database/config.py:38-39 | the character-by-character prefix test agrees with comparing the first `|p|` characters |
| Config.SpanOutside | app/database/config.py:38 | the run of `[^:;]+` never goes past the end of the string |
| Config.SpanOutsideStops | app/database/config.py:38 | the greedy run covers only allowed characters and stops at a stop character or at the end |
| Config.DigitSpan | app/database/config.py:38 | the greedy `\d+` run is made of digits and lies within the string |
| Config.DigitSpanStops | app/database/config.py:38 | the digit run stops at a non-digit or at the end |
| Config.HasPrefixAppend | app/database/config.py:38-39 | a string followed by anything starts with that string, and what follows is the rest |
| Config.SpanOutsideExact | app/database/config.py:38 | a run that stops where the characters say is the span |
| Config.DigitSpanExact | app/database/config.py:38 | a digit run that stops where the characters say is the digit span |
| Config.NameOf | app/database/config.py:38-44 | `(.+)` takes the database name up to the end of its line |
| Config.DatabaseOf | app/database/config.py:38-44 | after `;DatabaseName=` the database name is read |
| Config.AfterHostOf | app/database/config.py:38-43 | an optional `:digits` before `;` gives `int(digits)`, and its absence 1433 |
| Config.HostOf | app/database/config.py:38-42 | the host is the run before the first ':' or ';' |
| Config.ParseWellFormed | app/database/config.py:31-45 | every URL of the pattern's shape parses to its own host, port (or 1433) and database |
| Config.NameShape | app/database/config.py:38-44 | a database name that parses is a non-empty line followed by nothing or a new line |
| Config.DatabaseShape | app/database/config.py:38-44 | a tail that parses is `;DatabaseName=`, the name and such a suffix |
| Config.AfterHostShape | app/database/config.py:38-43 | what follows a host that parses is an optional `:digits` part and then the database part |
| Config.HostShape | app/database/config.py:38-42 | a rest that parses starts with a non-empty host free of ':' and ';' |
| Config.ParsedHasShape | app/database/config.py:31-45 | every URL that parses is built from well-formed parts, and those are the parts it parses to |
| Config.FormatParseRoundTrip | app/database/config.py:31-45 | writing a host, port and database as `jdbc:sqlserver://H:P;DatabaseName=D` and parsing it gives them back |
| Config.DefaultPort | app/database/config.py:36-43 | a URL without a port names port 1433 |
| Config.OtherSchemeRejected | app/database/config.py:39-41 | a URL that does not start with `jdbc:sqlserver://` raises, naming the URL |
| Config.EmptyHostRejected | app/database/config.py:38-41 | an empty host raises |
| Config.ColonWithoutDigitsRejected | app/database/config.py:38-41 | a ':' after the host that no digit follows raises |
| Config.EmptyDatabaseRejected | app/database/config.py:38-41 | an empty database name raises |
| Config.ParsedUrls | app/database/config.py:57-58 | one parse result per server entry, in order |
| Config.ResolveErrSticks | app/database/config.py:57-58 | once an entry's URL raises, the later entries change nothing |
| Config.ResolveOk | app/database/config.py:57-69 | the list loads exactly when every URL parsed |
| Config.ResolveContents | app/database/config.py:57-69 | a loaded list has one server per entry, built from the entry and the parts of its URL |
| Config.ResolveFirstError | app/database/config.py:57-58 | a list that fails fails with the error of its first URL that does not parse |
| Config.LoadServersMeaning | app/database/config.py:48-69 | servers load exactly when every URL parses; server i is entry i with its URL's host, port and database and a missing driver read as ""; otherwise the error names the first bad URL |
| Config.LoadDatabaseServers | app/database/config.py:56-69 | the loop over `Servers` (an absent key read as an empty list) returns what the specification of the list gives |
| Config.ParseErrorNamesUrl | app/database/config.py:40-41 | the error of a URL that does not parse carries that URL |
| Config.SaveLoadRoundTrip | app/database/config.py:72-102 | saving settings and loading them again gives the same settings |
| Config.LoadDefaults | app/database/config.py:72-87 | a missing file or missing keys give port 8080, an empty context path and server 1; every key present is taken as written |
| OrderService.Code | app/services/order_service.py:17-24 | each document type has an `OrderSource` value from 0 to 6 |
| OrderService.SourceTypeOf | app/services/order_service.py:17-24 | exactly the values 0 to 6 name a document type, and that type has the value |
| OrderService.CodeRoundTrip | app/services/order_service.py:17-24 | the seven values are distinct: each type is recovered from its value |
| OrderService.GetOrderById | app/services/order_service.py:66-85 | an order is returned exactly when the id is in the table, and it is that row |
| OrderService.InsertByItemNumber | app/services/order_service.py:99 | inserting one item adds exactly that item |
| OrderService.InsertKeepsSorted | app/services/order_service.py:99 | inserting into rows in `ItemNumber` order (NULL first) keeps them in order |
| OrderService.SortByItemNumber | app/services/order_service.py:99 | `ORDER BY ItemNumber` returns a permutation of the rows |
| OrderService.SortIsSorted | app/services/order_service.py:99 | `ORDER BY ItemNumber` returns the rows in item-number order, NULL first |
| OrderService.SortOfSorted | app/services/order_service.py:99 | rows already in item-number order come back unchanged |
| OrderService.ItemsOf | app/services/order_service.py:99 | an order's rows are some of the table's rows |
| OrderService.ItemsOfAppend | app/services/order_service.py:99 | an order's items in two stretches of the table are its items in each, in order |
| OrderService.ItemsOfOther | app/services/order_service.py:99 | an order that no row names has no items |
| OrderService.GetOrderItems | app/services/order_service.py:88-104 | the items are exactly the order's rows, as a permutation, in item-number order |
| OrderService.GetOrderReferences | app/services/order_service.py:107-131 | the references are exactly the edges leaving the order |
| OrderService.ItemsOfOwn | app/services/order_service.py:99 | rows that all belong to the order are its items, one for one, in order |
| OrderService.NewOrderItems | app/services/order_service.py:88-104 | a new order whose rows were appended in item-number order gets back exactly those items, in that order |
| OrderService.ExtendsItems | app/services/order_service.py:88-104 | rows added under new ids leave every older order's items as they were |
| OrderService.ReferencesOfOther | app/services/order_service.py:107-131 | an order no edge leaves has no references |
| OrderService.ReferencesAfterAdd | app/services/order_service.py:107-131 | a new edge is seen from its own order only, after the edges it already had |
| OrderService.GetOrderDetail | app/services/order_service.py:134-154 | no detail for an unknown id; otherwise the order row, its items sorted and complete, and exactly its edges |
| OrderService.NewerFirstIsTotal | app/services/order_service.py:219 | `ORDER BY OrderDate DESC, id DESC` is a strict total order on the matching orders |
| OrderService.OrderedMatches | app/services/order_service.py:180-219 | exactly the orders matching every given filter, each once, newest first |
| OrderService.ListOrders | app/services/order_service.py:157-226 | a page exists exactly for page and page size of at least 1; the total counts all matches; the page has at most page-size orders, all matching, newest first, from offset `(page - 1) * page_size` |
| OrderService.OffsetSign | app/services/order_service.py:214 | with a positive page size the offset is negative exactly when the page is below 1 |
| OrderService.Window | app/services/order_service.py:220 | `OFFSET o ROWS FETCH NEXT n ROWS ONLY` takes at most n consecutive rows starting at position o |
| OrderService.PageOfPosition | app/services/order_service.py:214-223 | paging is a partition: the match at position i is entry `i % page_size` of page `i / page_size + 1` |
| OrderService.SourceOrders | app/services/order_service.py:242-250 | the source orders are exactly the existing targets of the edges leaving the order |
| OrderService.DerivedOrders | app/services/order_service.py:252-260 | the derived orders are exactly the existing origins of the edges pointing at the order |
| OrderService.GetOrderTraceability | app/services/order_service.py:229-269 | nothing for an unknown id; otherwise the current order is the row itself |
| OrderService.TraceabilityIsSymmetric | app/services/order_service.py:229-269 | a is listed as a source of b exactly when b is listed as derived from a |
| OrderService.SetWaitingFields | app/services/order_service.py:288-294 | only the waiting date and number of the one order change |
| OrderService.SetAlreadyFields | app/services/order_service.py:318-324 | only the already date and number of the one order change |
| OrderService.TrackingUpdatesCommute | app/services/order_service.py:272-329 | the two tracking updates commute and each is idempotent |
| OrderService.UpdateOrderWaitingFields | app/services/order_service.py:272-299 | only the orders table changes, as the waiting-fields update says, and the method reports success |
| OrderService.UpdateOrderAlreadyFields | app/services/order_service.py:302-329 | only the orders table changes, as the already-fields update says, and the method reports success |
| OrderService.AddReference | app/services/order_service.py:347-354 | the insert appends one edge with the next identity and touches nothing else |
| OrderService.AddOrderExtends | app/services/order_service.py:332-364 | a new order under the next id with its price and item rows and an edge keeps every id fresh and extends the tables |
| OrderService.CreateOrderReference | app/services/order_service.py:332-364 | the database gains exactly the new edge and the method reports success |
| OrderConversionService.OverrideKeyOf | app/services/order_conversion_service.py:97-98 | an entry has a key exactly when its ISBN or item number is truthy, and the key is the ISBN whenever the ISBN is truthy |
| OrderConversionService.OverridesDomain | app/services/order_conversion_service.py:94-99 | a key is in `items_map` exactly when some entry carries it |
| OrderConversionService.OverridesLast | app/services/order_conversion_service.py:94-99 | the quantity mapped to a key is that of the last entry carrying it |
| OrderConversionService.BuildOverrides | app/services/order_conversion_service.py:94-99 | the loop builds exactly the map the specification gives |
| OrderConversionService.CopiedRows | app/services/order_conversion_service.py:162-190 | one item row per source item, in order, under the new id and number |
| OrderConversionService.NewOrderFor | app/services/order_conversion_service.py:67-202 | a failure writes nothing; success returns the next id and today's date and leaves the products alone |
| OrderConversionService.CopyItems | app/services/order_conversion_service.py:162-190 | the loop appends exactly the copied rows and changes nothing else |
| OrderConversionService.InsertHeader | app/services/order_conversion_service.py:101-160 | the header and price row are stored under the next identity, which is returned |
| OrderConversionService.CreateNewOrder | app/services/order_conversion_service.py:67-202 | the database and the result are those the specification of `_create_new_order` gives |
| OrderConversionService.NewOrderForOk | app/services/order_conversion_service.py:82-202 | an existing source with items and a number for the day creates the new document and returns its id, number text and date |
| OrderConversionService.WriteNewOrderExtends | app/services/order_conversion_service.py:101-193 | the writes add only rows under the new id: one order, one price row, its items and one edge |
| OrderConversionService.NewOrderExtends | app/services/order_conversion_service.py:67-202 | the new document only adds rows under its own id and leaves the products alone |
| OrderConversionService.NewOrderHeader | app/services/order_conversion_service.py:101-160 | the new header has the generated number, today's date, the target type, the source's customer or supplier, the source's item count, the conversion remark and system origin; its price row is the source's under the new number, or zeros |
| OrderConversionService.NewOrderItemsCopied | app/services/order_conversion_service.py:162-190 | the new document's items read back as the source's items in item-number order, each with its overridden quantity |
| OrderConversionService.NewOrderEdge | app/services/order_conversion_service.py:192-193 | the new document has exactly one edge, pointing at the source |
| OrderConversionService.CopiedQuantityOverridden | app/services/order_conversion_service.py:165-169 | a copied item takes the quantity of the last entry naming its ISBN, failing that of the last entry naming its item number |
| OrderConversionService.CopiedQuantityKept | app/services/order_conversion_service.py:165-169 | an item no entry names keeps its own quantity |
| OrderConversionService.StockRequests | app/services/order_conversion_service.py:236-240 | one stock request per item with an ISBN, with its quantity or 0 |
| OrderConversionService.Shortages | app/services/order_conversion_service.py:244-252 | exactly the insufficient results with a positive shortage become shortage lines |
| OrderConversionService.PurchasesFor | app/services/order_conversion_service.py:254-257 | purchase generation runs only for the quotation conversion when asked to |
| OrderConversionService.Convert | app/services/order_conversion_service.py:205-430 | an unknown source, a source of the wrong type and a source without items each raise with nothing written |
| OrderConversionService.StockResults | app/services/order_conversion_service.py:236-241 | the quotation conversion checks one result per stock request; the others check nothing |
| OrderConversionService.MoveStock | app/services/order_conversion_service.py:270-272 | the stock loop changes only the products, as the movement of the items says |
| OrderConversionService.MoveOne | app/services/order_conversion_service.py:364-369 | the counter updates of one item change the products as its movement says |
| OrderConversionService.MoveItemsStep | app/services/order_conversion_service.py:364-369 | the stock loop over one more item is the loop so far followed by that item's movement |
| OrderConversionService.FinishConversion | app/services/order_conversion_service.py:266-272 | stamping the source and the stock loop give the state the specification gives |
| OrderConversionService.ConvertQuotationToWaitingShipment | app/services/order_conversion_service.py:205-281 | the database and the result are those of the quotation conversion |
| OrderConversionService.ConvertPurchaseToWaitingReceipt | app/services/order_conversion_service.py:284-322 | the database and the result are those of the purchase conversion |
| OrderConversionService.ConvertWaitingShipmentToShipment | app/services/order_conversion_service.py:325-376 | the database and the result are those of the shipment conversion |
| OrderConversionService.ConvertWaitingReceiptToReceipt | app/services/order_conversion_service.py:379-430 | the database and the result are those of the receipt conversion |
| OrderConversionService.ConvertSteps | app/services/order_conversion_service.py:223-281 | a successful conversion had a source of the right type; purchase generation and the new document succeeded, then the source was stamped and the stock moved |
| OrderConversionService.PurchasesExtend | app/services/order_conversion_service.py:254-257 | purchase generation only adds rows under new ids, and the purchase orders it reports hold consecutive ids |
| OrderConversionService.ConvertedSource | app/services/order_conversion_service.py:266-267 | after success the source carries the new document's date and number in its Waiting fields (into a waiting document) or its Already fields (the two others); no other order changes |
| OrderConversionService.ConvertedTarget | app/services/order_conversion_service.py:259-264 | after success the new document is in the table with the target type, the source's customer, the reported number and date, the source's item count, and the id after the purchase orders generated on the way |
| OrderConversionService.FinishKeeps | app/services/order_conversion_service.py:266-267 | stamping the source leaves every other order as it was |
| OrderConversionService.ConvertedPurchases | app/services/order_conversion_service.py:235-281 | only the quotation conversion reports its stock check; purchase orders are reported only when asked for and something was short, and their ids precede the new document's |
| OrderConversionService.ConvertedItems | app/services/order_conversion_service.py:162-193 | after success the new document's items are the source's with overridden quantities, its one edge points at the source, and the source's items are untouched |
| OrderConversionService.ConvertedStock | app/services/order_conversion_service.py:269-272 | every stock counter of every product moved by the movement's effect times the source items' own quantities, plus the shortages ordered for that product |
| OrderConversionService.PurchasesStock | app/services/order_conversion_service.py:254-257 | purchase generation raises `WaitingIntoInStock` by the shortages ordered and leaves the other counters alone |
| OrderConversionService.FinishStock | app/services/order_conversion_service.py:418-423 | stamping leaves the products alone; the stock loop moves each counter by the movement's effect times the quantity moved |
| StockService.Available | app/services/stock_service.py:38-48 | availability is on-hand minus safety stock plus incoming minus promised, floored at zero: never negative and never below the raw figure |
| StockService.GetProductStock | app/services/stock_service.py:12-49 | no record exactly when the ISBN is unknown; otherwise the name, the four counters with NULL read as 0, and the floored availability |
| StockService.IsShipmentInStockEnough | app/services/stock_service.py:52-67 | an unknown ISBN is (False, 0); otherwise the availability, with "enough" exactly when it covers the quantity |
| StockService.CheckItem | app/services/stock_service.py:81-109 | a known product is sufficient exactly when availability covers the request, exactly when its shortage is zero, and the shortage is the positive gap; an unknown one is insufficient, has no name and is short by the whole request |
| StockService.CheckStockForItems | app/services/stock_service.py:70-111 | one result per request, in request order, each the check of that request alone |
| StockService.AddToCounter | app/services/stock_service.py:127-130 | the chosen counter of the chosen ISBN becomes its old value (NULL as 0) plus the delta; every other counter, field and product is untouched and no product appears or disappears |
| StockService.AddThenSubtract | app/services/stock_service.py:127-130 | applying a delta and then its negation restores the counter, and restores the whole table when the counter was not NULL |
| StockService.UpdateWaitingShipmentQuantity | app/services/stock_service.py:114-136 | the new table is the old one with only WaitingShipmentQuantity of that ISBN moved by the delta; success is reported |
| StockService.UpdateWaitingIntoInStock | app/services/stock_service.py:139-161 | the new table is the old one with only WaitingIntoInStock of that ISBN moved by the delta; success is reported |
| StockService.UpdateInStock | app/services/stock_service.py:164-186 | the new table is the old one with only InStock of that ISBN moved by the delta; success is reported |
| StockService.Move | app/services/order_conversion_service.py:270-272 | one movement keeps the set of products |
| StockService.MoveItems | app/services/order_conversion_service.py:364-369 | a conversion's stock loop keeps the set of products |
| StockService.MoveCounts | app/services/order_conversion_service.py:418-423 | one movement shifts each counter of the moved ISBN by the movement's effect times the quantity and leaves every other product and the safety stock alone |
| StockService.MoveItemsCounts | app/services/order_conversion_service.py:364-369 | over all items, each product's counters shift by the effect times the total quantity moved under its ISBN, skipping items with no ISBN or zero quantity |
| StockService.MovementAvailability | app/services/stock_service.py:38-48 | shipping and receiving leave each product's availability unchanged; reserving lowers the raw availability by exactly the quantity reserved |
| PurchaseOrderService.GetSupplierForProduct | app/services/purchase_order_service.py:21-50 | no row exactly when the product is unknown; otherwise the ISBN and name, and a supplier name exactly when the product's SupplierID matches a supplier |
| PurchaseOrderService.SupplierKeyOf | app/services/purchase_order_service.py:106-113 | an item is filed under its product's supplier when the product exists and names one, and under "UNKNOWN" otherwise; the key is never empty |
| PurchaseOrderService.LineOf | app/services/purchase_order_service.py:122-126 | a purchase line carries the item's ISBN and its shortage as the quantity |
| PurchaseOrderService.AddLine | app/services/purchase_order_service.py:115-126 | appending a line adds a group exactly when the supplier had none |
| PurchaseOrderService.HasGroupTail | app/services/purchase_order_service.py:115 | membership of a supplier past a different first group is membership in the rest |
| PurchaseOrderService.AddLineAt | app/services/purchase_order_service.py:115-126 | an existing group gains the line exactly when it is the supplier's group; the others are unchanged |
| PurchaseOrderService.AddLineNew | app/services/purchase_order_service.py:115-120 | a supplier without a group gets a new group at the end holding just the line, under the name looked up for it |
| PurchaseOrderService.AddLineDistinct | app/services/purchase_order_service.py:97-126 | adding a line never makes two groups for one supplier |
| PurchaseOrderService.Grouped | app/services/purchase_order_service.py:97-126 | the grouping loop yields groups with distinct supplier ids |
| PurchaseOrderService.FirstKept | app/services/purchase_order_service.py:99-104 | the first kept item of a supplier is a position within the input |
| PurchaseOrderService.GroupedStepAt | app/services/purchase_order_service.py:99-126 | one more item changes only its own supplier's group or opens a new one at the end |
| PurchaseOrderService.GroupedCoversId | app/services/purchase_order_service.py:99-126 | every supplier with an item of positive shortage has a group |
| PurchaseOrderService.GroupedLinesAt | app/services/purchase_order_service.py:99-126 | each group holds exactly its supplier's items of positive shortage, in input order, and is never empty |
| PurchaseOrderService.GroupedLines | app/services/purchase_order_service.py:99-126 | every group holds exactly its supplier's lines in input order and none is empty |
| PurchaseOrderService.GroupedCovers | app/services/purchase_order_service.py:99-126 | no supplier with a positive shortage is left without a group |
| PurchaseOrderService.GroupedNameAt | app/services/purchase_order_service.py:108-120 | a group carries the supplier name looked up for its first item, or the unknown-supplier label |
| PurchaseOrderService.GroupedNames | app/services/purchase_order_service.py:108-120 | every group is named after the lookup of its first item |
| PurchaseOrderService.FirstKeptStep | app/services/purchase_order_service.py:99-104 | a supplier already seen keeps the position of its first item when more items follow |
| PurchaseOrderService.GroupedOrderAt | app/services/purchase_order_service.py:115-120 | of two groups, the earlier one's supplier appears first in the input |
| PurchaseOrderService.GroupedOrder | app/services/purchase_order_service.py:132 | groups, and so the purchase orders, come in the order in which their suppliers first appear |
| PurchaseOrderService.GroupBySupplier | app/services/purchase_order_service.py:96-126 | the imperative grouping loop returns exactly the reference grouping |
| PurchaseOrderService.NothingKept | app/services/purchase_order_service.py:103-104 | items without a positive shortage produce no group |
| PurchaseOrderService.PurchaseItemRows | app/services/purchase_order_service.py:183-203 | one item row per line, at the same position, numbered from 1 with zero prices |
| PurchaseOrderService.AddInbound | app/services/purchase_order_service.py:205-206 | the stock updates keep the set of products |
| PurchaseOrderService.AddInboundCounts | app/services/purchase_order_service.py:205-206 | each product's WaitingIntoInStock rises by the quantity ordered for it; nothing else in its row changes |
| PurchaseOrderService.WritePurchase | app/services/purchase_order_service.py:139-224 | writing one purchase order, once numbered, always succeeds and reports the order it wrote |
| PurchaseOrderService.PurchaseOrderFor | app/services/purchase_order_service.py:139-228 | a numbering error leaves the tables untouched |
| PurchaseOrderService.PurchaseOrdersFor | app/services/purchase_order_service.py:129-230 | the loop reports at most one order per group |
| PurchaseOrderService.PurchaseOrdersForStep | app/services/purchase_order_service.py:132-139 | a further group is skipped when empty or after an error, and otherwise its order is written after the earlier ones |
| PurchaseOrderService.PurchaseQuotation | app/services/purchase_order_service.py:93-94 | an empty shortage list writes nothing and returns no orders |
| PurchaseOrderService.NoShortageNoWrites | app/services/purchase_order_service.py:99-137 | when no item has a positive shortage nothing is written and nothing returned |
| PurchaseOrderService.ErrorStops | app/services/purchase_order_service.py:226-228 | once an error has stopped the loop, later groups change nothing |
| PurchaseOrderService.PurchaseOrderItems | app/services/purchase_order_service.py:183-203 | the items of a new purchase order read back as its lines, numbered 1 to n, with every price zero and no unit |
| PurchaseOrderService.WritePurchaseFresh | app/services/purchase_order_service.py:170-209 | one order id and one reference id are issued and every new row is filed under them |
| PurchaseOrderService.WritePurchaseExtends | app/services/purchase_order_service.py:141-209 | writing a purchase order only adds rows under the new order id |
| PurchaseOrderService.ConsecutiveSnoc | app/services/purchase_order_service.py:218-224 | appending the next id keeps the reported ids consecutive |
| PurchaseOrderService.OrdersForStep | app/services/purchase_order_service.py:132-224 | one unfolding of the per-supplier loop |
| PurchaseOrderService.PurchaseOrdersExtend | app/services/purchase_order_service.py:132-224 | the loop only adds rows under new ids and the reported orders hold consecutive ids |
| PurchaseOrderService.PurchaseQuotationExtends | app/services/purchase_order_service.py:80-230 | purchase generation only adds rows, and numbers the orders it reports consecutively |
| PurchaseOrderService.PurchaseOrderContents | app/services/purchase_order_service.py:141-224 | read back through the order service, a new purchase order has the supplier, the generated number, the line count, a zero price row, its lines and one edge to the quotation, and the summary names it |
| PurchaseOrderService.LineQuantityAppend | app/services/purchase_order_service.py:122-126 | the quantity ordered for an ISBN grows by a new line's quantity when it is that ISBN |
| PurchaseOrderService.AddLineQuantity | app/services/purchase_order_service.py:115-126 | adding a line raises the quantity ordered for its ISBN across all groups by its quantity |
| PurchaseOrderService.GroupedQuantity | app/services/purchase_order_service.py:99-126 | across all groups, each ISBN is ordered in exactly the total of its positive shortages |
| PurchaseOrderService.GroupsQuantitySnoc | app/services/purchase_order_service.py:132-137 | a further group adds its own quantity for an ISBN |
| PurchaseOrderService.GroupsQuantityLast | app/services/purchase_order_service.py:132-137 | the quantity of the groups is that of all but the last plus the last's |
| PurchaseOrderService.OrdersForInbound | app/services/purchase_order_service.py:183-206 | the orders written raise each product's WaitingIntoInStock by the quantity ordered for it and change no other column |
| PurchaseOrderService.OrdersForProductsStep | app/services/purchase_order_service.py:132-206 | one loop step changes the products only by its group's inbound quantities |
| PurchaseOrderService.QuotationInbound | app/services/purchase_order_service.py:80-230 | after success, each product's WaitingIntoInStock has risen by exactly its positive shortages and nothing else in the row changed |
| PurchaseOrderService.MatchingSubset | app/services/purchase_order_service.py:63-69 | orders kept unchanged keep their numbers among the day's purchase numbers |
| PurchaseOrderService.PurchaseStep | app/services/purchase_order_service.py:53-77 | with every purchase number of the day generated, the next order gets a well-formed number above all earlier ones and keeps that invariant |
| PurchaseOrderService.PurchaseOrdersInOrder | app/services/purchase_order_service.py:129-230 | with every purchase number of the day generated, the loop never fails and writes one order per group in order, with consecutive fresh ids and strictly increasing numbers above all earlier ones, leaving old orders untouched |
| PurchaseOrderService.CreatedStep | app/services/purchase_order_service.py:132-224 | that loop invariant survives one more purchase order |
| PurchaseOrderService.QuotationOrders | app/services/purchase_order_service.py:80-230 | generation never fails under that numbering invariant and writes one order per supplier group, in first-appearance order, with consecutive ids and rising numbers |
| PurchaseOrderService.WritePurchaseLines | app/services/purchase_order_service.py:183-206 | the inner loop leaves the state the reference function describes: one item row per line, each followed by its stock update |
| PurchaseOrderService.CreatePurchaseOrder | app/services/purchase_order_service.py:139-224 | one iteration of the per-supplier loop leaves the state and returns the result the reference function gives |
| PurchaseOrderService.GeneratePurchaseQuotation | app/services/purchase_order_service.py:80-230 | the whole operation leaves the state and returns the orders the reference function gives |
| QuotationService.OrderTaxOf | app/services/quotation_service.py:40-43 | the customer is taxed exactly when the order-tax text is "應稅" or "含稅"; the flag is 0 or 1 |
| QuotationService.PrintPricingOf | app/services/quotation_service.py:45-48 | prices are printed unless the text upper-cases to "N"; the flag is 0 or 1 |
| QuotationService.SaleModelOf | app/services/quotation_service.py:17-51 | a known sale-model name maps to its code, anything else to 0; the code lies in 0..5 |
| QuotationService.CustomerOf | app/services/quotation_service.py:38-131 | the customer row takes the given values, with "" for missing text, 1.0 for missing discounts, 25 for a missing receivable day, and the tax, print and sale-model codes above |
| QuotationService.QuotationNumber | app/services/quotation_service.py:184-188 | a non-blank requested number is used when its stripped text parses as an integer and is an error otherwise; a blank or missing one takes the day's next quotation number, passing on a numbering error |
| QuotationService.Amount | app/services/quotation_service.py:197-200 | a missing or empty amount is 0; a given one is its integer reading |
| QuotationService.Amounts | app/services/quotation_service.py:196-200 | no price info gives four zeros; otherwise the amounts are present exactly when all four parse |
| QuotationService.EstablishSourceOf | app/services/quotation_service.py:190-193 | manual exactly for "人工建立", system otherwise |
| QuotationService.QuotationItem | app/services/quotation_service.py:323-344 | the item number defaults to the position plus one and a missing quantity to 0 |
| QuotationService.QuotationRows | app/services/quotation_service.py:322-344 | one item row per product, in order, filed under the new order |
| QuotationService.QuotationEdges | app/services/quotation_service.py:348-355 | one edge per quotation id, in order, with no sub-bill |
| QuotationService.SubBillEdges | app/services/quotation_service.py:356-363 | one edge per sub-bill id, in order, with no quotation |
| QuotationService.AddEdges | app/services/quotation_service.py:346-363 | edges are appended in order under the next reference identities and nothing else changes |
| QuotationService.AddEdgesSnoc | app/services/quotation_service.py:349-363 | one more edge is one more reference insert after the others |
| QuotationService.FirstComma | app/services/quotation_service.py:370 | the first comma's position when there is one: a comma with none before it; none exactly when the text has no comma |
| QuotationService.AfterComma | app/services/quotation_service.py:369-371 | text without a comma is kept as it is |
| QuotationService.DataUrlPayload | app/services/quotation_service.py:370-371 | a data URL loses its header up to the first comma and keeps the payload after it |
| QuotationService.PictureRows | app/services/quotation_service.py:366-377 | at most one picture row per picture |
| QuotationService.PictureRowMember | app/services/quotation_service.py:366-377 | a given row is written exactly when some picture with image data yields it |
| QuotationService.PictureRowsMembers | app/services/quotation_service.py:366-377 | a row is written exactly for each picture with image data |
| QuotationService.PictureRowsAll | app/services/quotation_service.py:366-377 | when every picture has data there is one row per picture, in order |
| QuotationService.PictureRowsMeaning | app/services/quotation_service.py:366-377 | the rows written are exactly those of the pictures with image data, and when all have data, one per picture in order |
| QuotationService.AfterCustomer | app/services/quotation_service.py:184-384 | an error writes nothing once the customer exists; an invalid requested number and an unparsable amount are each reported exactly when they occur |
| QuotationService.NewQuotation | app/services/quotation_service.py:168-384 | an unknown customer without customer info is refused, and one given with a blank name is refused, both without writes |
| QuotationService.EdgeRows | app/services/quotation_service.py:346-363 | the reference rows are numbered from the base and point from the new order at the targets |
| QuotationService.NewQuotationOk | app/services/quotation_service.py:168-384 | success means the customer existed or was given with a name, the number and amounts were valid and the writes followed |
| QuotationService.WriteQuotationRows | app/services/quotation_service.py:232-377 | the writes are a header, price, project and shopping row under the next id, the item rows and edges and pictures appended, with customers and products untouched |
| QuotationService.QuotationCustomer | app/services/quotation_service.py:171-182 | after success the customer exists: an existing one is unchanged, a missing one is inserted from the request |
| QuotationService.QuotationHeaderWritten | app/services/quotation_service.py:232-384 | the returned id is the next order id; the header carries the number, date, source type 0, stripped customer id, one item per product and status 0, and the manual flag exactly for "人工建立" |
| QuotationService.WriteQuotationItems | app/services/quotation_service.py:322-344 | the new quotation's items read back as the products in order with their defaults |
| QuotationService.WriteQuotationKeepsItems | app/services/quotation_service.py:322-344 | no other order gains or loses an item |
| QuotationService.ItemsOfNewOrder | app/services/quotation_service.py:322-344 | rows appended under a fresh id read back as exactly those rows |
| QuotationService.ItemsOfOtherOrder | app/services/quotation_service.py:322-344 | rows appended under one id leave every other order's items alone |
| QuotationService.ReferencesOfNew | app/services/quotation_service.py:346-363 | edges appended under a fresh id are exactly that order's references |
| QuotationService.QuotationEdgesWritten | app/services/quotation_service.py:346-363 | the new quotation's references are one per quotation id, then one per sub-bill id |
| QuotationService.QuotationPicturesWritten | app/services/quotation_service.py:365-377 | the picture rows are appended, one per picture with image data |
| QuotationService.WriteQuotationExtends | app/services/quotation_service.py:232-377 | the writes of a quotation only add rows under its new id |
| QuotationService.QuotationErrorWrites | app/services/quotation_service.py:171-200 | an error leaves the tables as they were, except that a customer inserted before the number or an amount failed stays inserted |
| QuotationService.CreateCustomer | app/services/quotation_service.py:38-138 | the customer table gains exactly the row built from the info; nothing else changes |
| QuotationService.InsertQuotationHeader | app/services/quotation_service.py:232-320 | the new id is the next order id and the four header rows are filed under it |
| QuotationService.InsertItems | app/services/quotation_service.py:322-344 | the item loop appends exactly the reference rows |
| QuotationService.InsertQuotationEdges | app/services/quotation_service.py:348-355 | the quotation-id loop appends one edge per id, in order, after the edges already written |
| QuotationService.InsertSubBillEdges | app/services/quotation_service.py:356-363 | the sub-bill loop appends one edge per id, in order, after the edges already written |
| QuotationService.InsertEdges | app/services/quotation_service.py:346-363 | the reference loops append the quotation edges, then the sub-bill edges |
| QuotationService.InsertPictures | app/services/quotation_service.py:365-377 | the picture loop appends exactly the rows of the pictures with image data |
| QuotationService.CreateQuotation | app/services/quotation_service.py:168-384 | the whole operation leaves the state and returns the result the reference function gives |
| QuotationService.CreateForCustomer | app/services/quotation_service.py:184-384 | the operation past the customer step matches its reference function |
| ProductSearch.PlaceholdersOfNoPercent | app/services/product_service.py:42-61 | text without '%' has no placeholder |
| ProductSearch.PlaceholdersAppend | app/services/product_service.py:42-61 | placeholders of two joined texts add up when no `%s` straddles the join |
| ProductSearch.OnePlaceholder | app/services/product_service.py:45-60 | a column's LIKE condition has one placeholder |
| ProductSearch.ConditionPlaceholders | app/services/product_service.py:45-60 | each condition has one placeholder and the `" OR "` separator none |
| ProductSearch.NameConditions | app/services/product_service.py:53-55 | k copies of the product-name condition |
| ProductSearch.KeywordParams | app/services/product_service.py:54-56 | one parameter `%kw%` per keyword, in keyword order |
| ProductSearch.SearchPriority | app/services/product_service.py:29-64 | the query is the base, the condition and ")"; an ISBN wins with `isbn%`, then a firm code with `%code%`, and with no filter `FirmCode LIKE '%%'` matches every row |
| ProductSearch.NameSearch | app/services/product_service.py:50-57 | a name search has one condition per keyword of the stripped name joined by " OR ", parameters `%kw%` in keyword order, and the keywords are exactly the name's non-space text |
| ProductSearch.JoinedNamePlaceholders | app/services/product_service.py:57 | k joined name conditions hold k placeholders |
| ProductSearch.PlaceholdersMatchParams | app/services/product_service.py:42-64 | the condition has exactly one placeholder per parameter, whatever the filters |
| ProductSearch.BlankNameEmptyCondition | app/services/product_service.py:50-57 | a whitespace-only name with no ISBN or firm code leaves the condition empty: the query ends in `WHERE ()` and has no parameters |
| ProductSearch.BuildSearchQuery | app/services/product_service.py:23-64 | the branches and the keyword loop build exactly the query and parameters the specification gives |
| WaitingProductService.StatusReverse | app/services/waiting_product_service.py:12 | the reverse map is keyed by exactly the ordinals of the status map |
| WaitingProductService.StatusMapsInverse | app/services/waiting_product_service.py:10-12 | the two maps are inverse: a bijection between the four status names and the ordinals 0 to 3 |
| WaitingProductService.StatusName | app/services/waiting_product_service.py:126-127 | a known ordinal gives its name; NULL or an unknown ordinal gives "" |
| WaitingProductService.StatusNameOfOrdinal | app/services/waiting_product_service.py:126-127 | the name is "" exactly for NULL or an ordinal outside 0 to 3, and a non-empty name maps back to the ordinal |
| WaitingProductService.NewRecordFields | app/services/waiting_product_service.py:28-74 | a new record has status 新增 (ordinal 0), today as both key-in and update date, the request's name and vendor, 0 for a missing price and "" for a missing text, and everything given kept |
| WaitingProductService.ReadFilter | app/services/waiting_product_service.py:101-115 | the listing fails exactly for a non-blank unknown status; otherwise the vendor filter is the vendor code, a non-blank name filters by its stripped text, and a non-blank status by its ordinal |
| WaitingProductService.ByCodeIsTotal | app/services/waiting_product_service.py:117 | `ORDER BY ProductCode` is a strict total order on the matching rows |
| WaitingProductService.QueryRows | app/services/waiting_product_service.py:90-122 | the query returns exactly the rows that match every filter, in strictly increasing product-code order |
| WaitingProductService.DtoOf | app/services/waiting_product_service.py:124-155 | a listing entry carries the row's code and columns and the name of its status |
| WaitingProductService.Listing | app/services/waiting_product_service.py:124-156 | one entry per returned row, in the same order |
| WaitingProductService.ListContents | app/services/waiting_product_service.py:83-158 | the listing holds exactly the matching products, each with its columns and status name, strictly ordered by code |
| WaitingProductService.CheckStore.CreateWaitingProduct | app/services/waiting_product_service.py:22-80 | an existing code raises and changes nothing; otherwise the new record is stored under its code and the code and name are returned |
| WaitingProductService.CheckStore.ListWaitingProducts | app/services/waiting_product_service.py:83-158 | the method returns the listing the specification gives, or its error |
| WaitingProductService.CheckStore.RunQuery | app/services/waiting_product_service.py:119-156 | the loop over the query's rows builds exactly the listing of those rows |
| WaitingProductService.BuildFilter | app/services/waiting_product_service.py:99-115 | the conditions added one by one give exactly the filter the specification reads, or its error |
| WaitingProductValidation.Rank | app/routers/waiting_product.py:21-36 | the seven checks run in a fixed order |
| WaitingProductValidation.ValidIff | app/routers/waiting_product.py:21-36 | a request passes exactly when none of the seven checks fails |
| WaitingProductValidation.FirstFailureWins | app/routers/waiting_product.py:21-36 | the error reported is the one whose check fails while every earlier check passes, and only that one |
| WaitingProductValidation.VipPricesUnchecked | app/routers/waiting_product.py:21-36 | the VIP prices never affect validation |
| WaitingProductValidation.ZeroOrMissingPricesPass | app/routers/waiting_product.py:31-36 | absent and zero prices both pass |
| WaitingProductValidation.PassingRequest | app/routers/waiting_product.py:21-36 | a request that passes has non-blank product code, name and vendor, a vendor code, and no negative list, single or batch price |
| QuotationValidation.ProductProblem | app/routers/quotation.py:30-34 | a product passes exactly when it has a non-blank name and a positive quantity; otherwise the name error comes first and names its position counted from 1 |
| QuotationValidation.FirstBad | app/routers/quotation.py:30-34 | the loop stops at the first failing product: everything before it passes, and it fails |
| QuotationValidation.PriceFields | app/routers/quotation.py:38-43 | the check visits the four price texts |
| QuotationValidation.ValidIff | app/routers/quotation.py:19-48 | a request passes exactly when the date and customer id are non-blank, there is a product, every product has a name and a positive quantity, and every given price text parses as an integer |
| QuotationValidation.ProductErrorIsFirst | app/routers/quotation.py:21-34 | a product error comes only after the date and customer id passed, and names the first failing product with the right reason |
| QuotationValidation.FirstFailure | app/routers/quotation.py:30-34 | the product loop's error names the first failing product, name before quantity |
| QuotationValidation.ValidRequestHasAmounts | app/routers/quotation.py:36-48 | a request that passes always yields four amounts in the service and has at least one product |
| QuotationValidation.WellFormedPricesHaveAmounts | app/routers/quotation.py:44-48 | price texts that parse give the service its four amounts |
| QuotationValidation.AmountOfParsed | app/routers/quotation.py:44-46 | a price text that parses, or none, has an amount |
| QuotationValidation.EmptyPriceRejected | app/routers/quotation.py:44-48 | an empty price text is refused by the check |
| QuotationValidation.ValidateRequest | app/routers/quotation.py:19-48 | the checks in their order return exactly the reference verdict |
| QuotationValidation.CheckProducts | app/routers/quotation.py:30-34 | the product loop returns exactly the first product's error, or none |
| QuotationValidation.CheckPrices | app/routers/quotation.py:36-48 | no error exactly when every given price text parses; otherwise the price-format error |
| Sorting.SortSet | app/services/order_service.py:219 | the rows of an ORDER BY on a key unique to each row are exactly the matching rows, each once, in strictly increasing order |
| Sorting.Least | app/services/order_service.py:219 | the first row under such an order is a row that precedes every other |
| Schema.ExtendsReflexive | app/services/order_service.py:332-364 | leaving the tables alone counts as extending them |
| Schema.ExtendsTransitive | app/services/order_service.py:332-364 | two writes that each only add rows under new ids together only add rows under new ids |
| Schema.AppendExtends | app/services/quotation_service.py:232-363 | one new order under the next id, with its price row, items and edges appended under that id, only adds rows |
| Decimal.FromNat | app/services/order_conversion_service.py:59 | `str` of a natural number is a non-empty digit string without a leading zero, "0" for zero |
| Decimal.FromInt | app/services/purchase_order_service.py:220 | `str` of an integer is that of its magnitude, after a minus sign when negative |
| Decimal.Parse | app/services/order_conversion_service.py:60 | a digit string of length k reads as a number below 10^k |
| Decimal.FromNatInjective | app/services/order_conversion_service.py:59 | distinct numbers have distinct decimal texts |
| Text.ParseSigned | app/services/quotation_service.py:186 | `int()` of a stripped text succeeds exactly on an optional sign followed by digit groups separated by single underscores |
| Text.SignedRoundTrip | app/services/quotation_service.py:382 | reading back the text of any integer gives that integer |
| Text.LexTotal | app/services/waiting_product_service.py:117 | ordering by product code compares any two distinct codes |
| WaitingProductService.ListingHasEveryMatch | app/services/waiting_product_service.py:99-156 | every stored waiting product that matches the filter appears in the listing |
| WaitingProductService.ListingRowsMatch | app/services/waiting_product_service.py:99-156 | every listed entry is a stored waiting product, unchanged, that matches the filter |
| StockService.StockChecks | app/services/stock_service.py:70-111 | one result per request |

## Left out

Left out on purpose, and why; each line is one thing:

- Database I/O is modelled as table values and a `Database` object. SQL text, cursors, pymssql and the connection pool are not modelled.
- Transactions and concurrency are not modelled. Each operation runs alone. The window between `SELECT MAX(OrderNumber)` and the `INSERT` is not modelled, so neither is a race between two callers that get the same number.
- The clock is not modelled. `datetime.now()` and the fallback taken for a malformed `order_date` are replaced by the explicit `Date` argument.
- Logging is not modelled. Nor are the texts of the error messages, the response DTOs, or the HTTP status codes. Errors are datatype constructors.
- SQL collation is not modelled. Name and LIKE comparisons are exact and case-sensitive. `%` and `_` inside a search keyword are not treated as wildcards. The model checks the text of the query and its parameters, not the rows it matches.
- The `CONVERT` of dates in listings is not modelled. Dates are kept as the stored text.
- Pydantic coercion is not modelled. Most fields have their declared types, and prices are optional reals.
- WaitingProductValidation.Validate: the vendor code is an `Option<int>`. This follows the router's `is None` check (app/routers/waiting_product.py:26-27). But app/models/waiting_product.py:11 declares the field `int` and required, so pydantic rejects a missing vendor code before the router runs, and that branch cannot be reached in the source.
- Digits are ASCII only. Python's `int()` and `\d` also accept other Unicode digits, and the model does not.
- The configuration loader's file and JSON I/O are not modelled. A file that is missing or malformed is modelled as no input.
- CategoryService.IdValue: models `CAST(CategoryID AS int)` only on plain ASCII digit strings. SQL Server also casts '' to 0, accepts surrounding blanks and a sign, and raises above 2147483647. The model captures none of these. It assumes every ID is a digit string within int range, the only form `_generate_category_id` writes.
- CategoryService.LayerMax: inherits that gap. When a layer holds an ID such as '', ' 7' or '+7', the model refuses the create as non-numeric where SQL Server computes a maximum; for a layer whose only ID is '', SQL Server gives 0 and the source creates "01". An ID above 2147483647 gives a value in the model where SQL Server raises.
- OrderService.UpdateOrderWaitingFields: the `except` that returns False (app/services/order_service.py:297-299) is not modelled. Dates are stored as text, so the conversion error the database raises for a malformed date cannot arise. The result is always true, and the update is always applied.
- OrderService.UpdateOrderAlreadyFields: the `except` that returns False (app/services/order_service.py:327-329) is not modelled, for the same reason. The result is always true.
- OrderService.CreateOrderReference: the `except` that returns False (app/services/order_service.py:362-364) is not modelled. The in-memory insert cannot fail, so the result is always true.
- StockService.UpdateWaitingShipmentQuantity: the `except` that returns False is not modelled, because the in-memory update cannot fail. The result is always true.
- StockService.UpdateWaitingIntoInStock: the same `except` is not modelled, for the same reason.
- StockService.UpdateInStock: the same `except` is not modelled, for the same reason.
- `is_partial` is not modelled. The conversion request carries it, but the code never reads it.
- Price rounding (`_round_price`) and the product list endpoint are not modelled.
- The vendor service, the routers other than the two validations, the documentation router, the middleware and the desktop GUI are not modelled. They are not part of this model.
- `convert_purchase_to_waiting_receipt` moves no stock, and the model follows the code. Purchase generation raises `WaitingIntoInStock`, and only the conversion from waiting receipt to receipt moves it into `InStock`.
- The stock check of a product that does not exist follows the code: `check_stock_for_items` reports a shortage equal to the requested quantity, even when that quantity is zero or negative.
- For a product name made only of spaces (and no ISBN or firm code), the product search builds `WHERE ()`, as the code does.

## Findings

| source | as written | input that shows it | evidently intended | confidence | as-written member | corrected member |
|---|---|---|---|---|---|---|
| app/services/category_service.py:170-174 | the rename runs `UPDATE ... WHERE CategoryID = id`, but ids are unique only within a layer, so every layer's row with that id is renamed | layer 1 holds "01" (A) and "02" (B); layer 2 holds "01" (C) and "02" (D); rename category "01" to "D" | rename only the row that passed the checks (the layer-1 "01"); names stay unique within each layer | not executed | CategoryService.UpdateAsWrittenBreaksNames | CategoryService.UpdateKeepsValid |
| app/services/category_service.py:229-234 | the delete runs `DELETE ... WHERE CategoryID = id` and removes the same id in every layer, including rows whose products were never checked | layer 1 holds "01" (A) and "02" (B); layer 2 holds "01" (C) under "02"; delete category "01" | delete only the checked row, leaving layer-2 "01" in place | not executed | CategoryService.DeleteAsWrittenRemovesTwo | CategoryService.DeleteRemovesOne |
