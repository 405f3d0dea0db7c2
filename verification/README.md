# Product inventory: a Dafny model

A Dafny model of a small manufacturing ERP. The ERP has a product catalogue, a raw-material
inventory, and a production suggestion: which products to make from the current stock, how many,
and for what value. The model covers both halves of the system.

**The Spring backend** works over an immutable in-memory store (`Entities.Store`) that stands in
for the database:

- the product service: create, update and delete; linking a raw material to a product (a
  composition) and unlinking it; conversion to DTOs;
- the raw-material service: lookup, create, update, delete, validation, conversion;
- the production-suggestion algorithm, including Java's `(int)` cast and its
  `Integer.MAX_VALUE` sentinel;
- the exception handler's mapping of errors to HTTP responses.

Service operations are pure functions returning a `Result`. A thrown exception becomes a
`Failure` carrying the `Errors.Error` the handler would translate.

**The React/Redux frontend:**

- the `inventory` slice, as a reducer `Step` from a state and an action to a state;
- the production dashboard's derived figures (units, largest value, best line, highlighting,
  bar widths);
- the raw-materials page's derived figures (low/adequate counts, largest stock, bar widths,
  status badges).

A last module, `ProductionView`, connects the two halves. The report the backend computes,
once loaded into the slice, gives the dashboard exactly the plan's lines, its value and its units.

Modules, leaves first: `Wrappers`, `Text`, `Errors`, `Dto`, `Entities`, `Lists`,
`RawMaterialService`, `ProductService`, `ProductionService`, `InventorySlice`,
`ProductionDashboard`, `RawMaterialsPage`, `ProductionView`.

### Modelling decisions

- **Stock and required quantities are integers.** The backend stores stock as a `Double` and
  required quantities as `Integer`. Prices and subtotals are `real`. Java's
  `(int) (available / required)` is modelled exactly for integer stock below 2^53: truncation toward zero,
  then saturation to the `int` range (`ProductionService.QuotientAsInt`).
- **Composition ids are unique across the whole store.** A product holds its compositions as an
  ordered sequence; the database's foreign key is read from the product's side. This uniqueness is
  the database's primary key, stated in `Entities.Valid` together with the foreign keys and the
  rule that no product links one raw material twice.
- **A product's compositions keep insertion order.** A new composition goes at the end and a
  removal keeps the order of the rest. The `@OneToMany` list in `Product.java` carries no
  `@OrderBy`, so after a reload the database may return the compositions in another order; the
  model fixes one order, and no modelled property depends on it beyond the position of a newly
  added composition in the returned DTO.
- **The production computation is parameterised.** It takes the product list in the order the
  repository returns it (descending price) and the raw-material table.
  `ProductionService.ZeroRequirementsResolve` is the one assumption about its input: a
  composition with a non-positive requirement refers to a raw material that exists.
- **The frontend's lists are sequences.** `find`/`findIndex` act on the first match
  (`Lists.ModifyFirst`); `filter` removes every match (`Lists.RemoveAll`). The JavaScript
  `??` is `Option.GetOr`. An empty array is truthy, so only a missing composition list is
  treated as absent.
- **Ties for the best line go to the later line.** The dashboard's best line comes from a
  `reduce` with a strict `>`, so on a tie the later line wins (`ProductionDashboard.TieGoesToLater`).
  A first-encountered reading of "largest" would say otherwise; the model follows the code.

## Model

| member | source | states |
|---|---|---|
| Errors.Respond | backend/src/main/java/com/example/project_inventory/exception/GlobalExceptionHandler.java:13-50 | not-found becomes 404 "Resource not found", a business error 422 "Business Rule Violation", both with the exception's message; anything else becomes 500 "Internal Server Error" with a fixed message; the body repeats the status and the request path |
| Errors.StatusDeterminesKind | backend/src/main/java/com/example/project_inventory/exception/GlobalExceptionHandler.java:13-50 | two responses have the same status iff their errors are of the same kind: the status identifies the handler |
| Errors.UnexpectedMessageHidden | backend/src/main/java/com/example/project_inventory/exception/GlobalExceptionHandler.java:39-50 | an unexpected error's own message never reaches the client: any two give the same response |
| Errors.DomainErrorsRecoverable | backend/src/main/java/com/example/project_inventory/exception/GlobalExceptionHandler.java:13-37 | for not-found and business errors, the status and message together recover the error |
| Text.IsBlank | backend/src/main/java/com/example/project_inventory/domain/service/ProductService.java:47 | the empty name is blank, and a blank name holds no ASCII letter or digit |
| Text.BlankConcat | backend/src/main/java/com/example/project_inventory/domain/service/RawMaterialService.java:60 | a name is blank exactly when each of its parts is |
| Text.BlankExamples | backend/src/main/java/com/example/project_inventory/domain/service/RawMaterialService.java:60 | spaces, tabs and line breaks are blank; a letter is not, nor a no-break space (which `Character.isWhitespace` rejects) |
| Text.IntToStringInjective | backend/src/main/java/com/example/project_inventory/domain/service/ProductService.java:40-43 | distinct ids render to distinct decimal texts, so the id in a not-found message identifies the entity |
| Text.NatToStringRoundTrip | backend/src/main/java/com/example/project_inventory/domain/service/ProductService.java:40-43 | reading back the decimal rendering of a natural number gives the number |
| Entities.OwnerUnique | backend/src/main/java/com/example/project_inventory/domain/service/ProductService.java:113-119 | in a valid store a composition belongs to at most one product, so the ownership check is well defined |
| Entities.Valid | backend/src/main/java/com/example/project_inventory/domain/model/ProductComposition.java:12-23 | in a store with the database's integrity the next identity value of each table is not yet in use, and no product holds a composition with the next composition id |
| RawMaterialService.FindById | backend/src/main/java/com/example/project_inventory/domain/service/RawMaterialService.java:31-34 | succeeds iff the id is stored, with that row; otherwise not-found naming the id |
| RawMaterialService.NotFoundMessageNamesId | backend/src/main/java/com/example/project_inventory/domain/service/RawMaterialService.java:31-34 | different ids give different not-found messages |
| RawMaterialService.ValidateMaterial | backend/src/main/java/com/example/project_inventory/domain/service/RawMaterialService.java:59-66 | accepts iff the name is present and not blank and the stock is present and non-negative; the name is checked first, each failure with its own business message |
| RawMaterialService.ConvertToDto | backend/src/main/java/com/example/project_inventory/domain/service/RawMaterialService.java:68-74 | the DTO carries the entity's id, name and stock |
| RawMaterialService.Save | backend/src/main/java/com/example/project_inventory/domain/service/RawMaterialService.java:36-40 | succeeds iff the form is valid, else fails with the validation error; adds exactly one row under a fresh id holding the form's data, leaving other rows and the products unchanged, and keeps the store valid (a body carrying an id is not modelled; see Left out) |
| RawMaterialService.Update | backend/src/main/java/com/example/project_inventory/domain/service/RawMaterialService.java:42-49 | validation comes before lookup, so an invalid form for an unknown id is a business error; on success only that row's name and stock change, the DTO is the updated row, and the store stays valid |
| RawMaterialService.Delete | backend/src/main/java/com/example/project_inventory/domain/service/RawMaterialService.java:51-57 | not-found for an unknown id; a material still used by a composition is refused by the foreign key as an unexpected error; otherwise exactly that row goes and validity is kept |
| RawMaterialService.DeleteTwiceNotFound | backend/src/main/java/com/example/project_inventory/domain/service/RawMaterialService.java:51-57 | deleting the same id a second time reports not-found |
| ProductService.ValidateProduct | backend/src/main/java/com/example/project_inventory/domain/service/ProductService.java:47-52 | accepts iff the name is present and not blank and the price is present and non-negative; the name is checked first, each failure with its own business message |
| ProductService.FindById | backend/src/main/java/com/example/project_inventory/domain/service/ProductService.java:40-43 | succeeds iff the id is stored, with that row; otherwise not-found naming the id |
| ProductService.ConvertCompositionToDto | backend/src/main/java/com/example/project_inventory/domain/service/ProductService.java:138-145 | the DTO carries the composition's id and quantity and the linked material's id and current name |
| ProductService.ConvertCompositions | backend/src/main/java/com/example/project_inventory/domain/service/ProductService.java:130-134 | the composition list is converted element by element, in order |
| ProductService.ConvertToDto | backend/src/main/java/com/example/project_inventory/domain/service/ProductService.java:125-136 | same id, name and price; one composition DTO per composition, in order, each naming its material |
| ProductService.Save | backend/src/main/java/com/example/project_inventory/domain/service/ProductService.java:45-57 | succeeds iff the form is valid, else the validation error; adds one product without compositions under a fresh id, leaves every other row alone, and keeps the store valid (a body carrying an id or compositions is not modelled; see Left out) |
| ProductService.Update | backend/src/main/java/com/example/project_inventory/domain/service/ProductService.java:59-74 | lookup comes before validation, so an unknown id is not-found whatever the form; on success only the name and price of that product change, and the DTO is the stored product |
| ProductService.UpdateKeepsValid | backend/src/main/java/com/example/project_inventory/domain/service/ProductService.java:59-74 | an update keeps the database's integrity |
| ProductService.Delete | backend/src/main/java/com/example/project_inventory/domain/service/ProductService.java:76-82 | not-found for an unknown id; otherwise exactly that product goes, materials untouched, validity kept |
| ProductService.AddComposition | backend/src/main/java/com/example/project_inventory/domain/service/ProductService.java:84-106 | checks in order: product exists, material exists, material not yet linked to the product (business error naming the material); on success the composition is appended to that product only, with a fresh id, the material and the requested quantity, and the DTO names the material |
| ProductService.AddCompositionKeepsValid | backend/src/main/java/com/example/project_inventory/domain/service/ProductService.java:92-104 | the new composition id is held by no product, and the store stays valid |
| ProductService.RemoveComposition | backend/src/main/java/com/example/project_inventory/domain/service/ProductService.java:108-122 | checks in order: product exists, composition exists, composition belongs to that product; success iff the product holds it; only that product changes, losing the composition and keeping all the others |
| ProductService.RemoveCompositionRemovesOne | backend/src/main/java/com/example/project_inventory/domain/service/ProductService.java:108-122 | in a valid store unlinking removes exactly one composition |
| ProductService.RemoveCompositionKeepsValid | backend/src/main/java/com/example/project_inventory/domain/service/ProductService.java:108-122 | unlinking keeps the store valid |
| ProductionService.Available | backend/src/main/java/com/example/project_inventory/domain/service/ProductionService.java:42 | a raw material missing from the temporary stock reads as 0; a present one as its stock |
| ProductionService.MissingMaterialBlocks | backend/src/main/java/com/example/project_inventory/domain/service/ProductionService.java:39-43 | a product with a positive requirement on a material missing from the stock is assigned nothing |
| ProductionService.QuotientAsInt | backend/src/main/java/com/example/project_inventory/domain/service/ProductionService.java:43 | the cast quotient is in the int range, at least 1 iff one unit fits, saturates exactly when the int maximum of units fits, and is the largest whole number of units that fit when not saturated |
| ProductionService.Possible | backend/src/main/java/com/example/project_inventory/domain/service/ProductionService.java:42-43 | what one composition allows lies in the `int` range, is at least 1 iff the available stock covers one unit, and is the largest whole number of units it covers (unless saturated) |
| ProductionService.Capacity | backend/src/main/java/com/example/project_inventory/domain/service/ProductionService.java:36-48 | the result is at most what every constraining composition allows, and is either the sentinel or attained by one of them |
| ProductionService.ComputeCapacity | backend/src/main/java/com/example/project_inventory/domain/service/ProductionService.java:36-48 | the first inner loop computes the capacity |
| ProductionService.Quantity | backend/src/main/java/com/example/project_inventory/domain/service/ProductionService.java:34-50 | the assigned quantity is below the `Integer.MAX_VALUE` sentinel, 0 for a product without compositions, and when positive equals what its most constraining composition allows and is at most what every other allows |
| ProductionService.QuantityIsLargestFeasible | backend/src/main/java/com/example/project_inventory/domain/service/ProductionService.java:34-50 | a positive quantity is feasible and one more unit is not; the quantity is zero iff not even one unit fits or the sentinel count fits |
| ProductionService.ConsumptionIsPerUnit | backend/src/main/java/com/example/project_inventory/domain/service/ProductionService.java:51-55 | what a quantity consumes of a material is the quantity times what one unit consumes |
| ProductionService.Deduct | backend/src/main/java/com/example/project_inventory/domain/service/ProductionService.java:51-55 | the second inner loop, in exact arithmetic: each material loses what the compositions consume of it, other keys untouched |
| ProductionService.DeductStock | backend/src/main/java/com/example/project_inventory/domain/service/ProductionService.java:51-55 | the loop computes the exact deduction |
| ProductionService.StockAfter | backend/src/main/java/com/example/project_inventory/domain/service/ProductionService.java:50-55 | after visiting a product each material has lost its per-unit requirement times the assigned quantity |
| ProductionService.Item | backend/src/main/java/com/example/project_inventory/domain/service/ProductionService.java:57-61 | a line carries the product's name and the quantity; its subtotal is non-negative for a non-negative price and 0 for no units |
| ProductionService.Wrap32 | backend/src/main/java/com/example/project_inventory/domain/service/ProductionService.java:53 | the result is the 32-bit two's-complement value congruent to the input |
| ProductionService.DeductAsWritten | backend/src/main/java/com/example/project_inventory/domain/service/ProductionService.java:51-55 | the deduction as written, with the int product wrapping; the stock keys stay the same |
| ProductionService.DeductAsWrittenOverflows | backend/src/main/java/com/example/project_inventory/domain/service/ProductionService.java:53 | a stock of three billion at two units per item gets a quantity of 1.5 billion, and the written deduction leaves 4294967296 where the exact one leaves 0 |
| ProductionService.StockOf | backend/src/main/java/com/example/project_inventory/domain/service/ProductionService.java:28-29 | the temporary stock has one entry per raw material, holding its stock |
| ProductionService.ValidStoreResolves | backend/src/main/java/com/example/project_inventory/domain/service/ProductionService.java:28-29 | products read from a store with the raw-material foreign key meet `ZeroRequirementsResolve` against that store's stock, so the excluded case cannot arise from the database |
| ProductionService.Allocate | backend/src/main/java/com/example/project_inventory/domain/service/ProductionService.java:33-63 | one quantity per product; the final stock has the same materials; deducts with the exact product, not the wrapping `int` one (see Left out and Findings) |
| ProductionService.AllocateConserves | backend/src/main/java/com/example/project_inventory/domain/service/ProductionService.java:33-63 | what is left of each material is its initial stock less what all assigned quantities consume |
| ProductionService.AllocateIsGreedy | backend/src/main/java/com/example/project_inventory/domain/service/ProductionService.java:33-63 | each product gets the largest feasible quantity for the stock left by the products before it |
| ProductionService.AllocateEmitsInOrder | backend/src/main/java/com/example/project_inventory/domain/service/ProductionService.java:50-62 | the report lists exactly the products with a positive quantity, one line each, in visiting order, each with that quantity and quantity times price |
| ProductionService.AllocateNeverOverdraws | backend/src/main/java/com/example/project_inventory/domain/service/ProductionService.java:50-55 | from non-negative stock, with no material linked twice to a product, no material ever goes negative |
| ProductionService.TotalIsRevenue | backend/src/main/java/com/example/project_inventory/domain/service/ProductionService.java:57-67 | the report's total is the sum over products of quantity times price |
| ProductionService.Suggest | backend/src/main/java/com/example/project_inventory/domain/service/ProductionService.java:57-69 | the report lists exactly the allocation's lines, and its total is the plan's value: each product's quantity times its price, summed |
| ProductionService.SumItems | backend/src/main/java/com/example/project_inventory/domain/service/ProductionService.java:65-67 | the summing loop computes the sum of the line subtotals |
| ProductionService.VisitProduct | backend/src/main/java/com/example/project_inventory/domain/service/ProductionService.java:34-62 | one pass of the outer loop emits a line iff the quantity is positive, and leaves the stock after that product |
| ProductionService.SuggestItems | backend/src/main/java/com/example/project_inventory/domain/service/ProductionService.java:31-63 | the outer loop produces the fold's report lines |
| ProductionService.CalculateSuggestedProduction | backend/src/main/java/com/example/project_inventory/domain/service/ProductionService.java:24-70 | the service method returns the report with the plan's lines and their total; deducts with the exact product, not the wrapping `int` one (see Left out and Findings) |
| ProductionService.EnoughStockExample | backend/src/main/java/com/example/project_inventory/domain/service/ProductionService.java:24-70 | 100 steel at 10 per unit and price 50 gives one line of 10 units worth 500 |
| ProductionService.NoStockExample | backend/src/main/java/com/example/project_inventory/domain/service/ProductionService.java:24-70 | without stock there are no lines and the total is 0 |
| ProductionService.NoCompositionsExample | backend/src/main/java/com/example/project_inventory/domain/service/ProductionService.java:34 | a product without compositions is skipped |
| ProductionService.HigherPriceFirstExample | backend/src/main/java/com/example/project_inventory/domain/service/ProductionService.java:26-62 | two products sharing 10 steel at 5 per unit: the dearer one, visited first, takes 2 units and the other gets nothing |
| ProductionService.SaturatedCapacityIsSkipped | backend/src/main/java/com/example/project_inventory/domain/service/ProductionService.java:50 | a product whose capacity reaches the int maximum is not reported although that many units fit |
| Lists.FindIndex | frontend/inventory-frontend/src/store/inventorySlice.jsx:114 | the index of the first element with the key, or none iff no element has it |
| Lists.ModifyFirst | frontend/inventory-frontend/src/store/inventorySlice.jsx:114-115 | only the first element with the key is replaced; no match leaves the list unchanged |
| Lists.RemoveAll | frontend/inventory-frontend/src/store/inventorySlice.jsx:125 | the result holds exactly the list's elements without the key, and is unchanged when no element has it |
| Lists.RemoveAllAppend | frontend/inventory-frontend/src/store/inventorySlice.jsx:125 | filtering distributes over concatenation, so the survivors keep their order |
| Lists.RemoveAllRemovesOne | frontend/inventory-frontend/src/store/inventorySlice.jsx:151 | with distinct keys, removing a present key shortens the list by one |
| InventorySlice.Initial | frontend/inventory-frontend/src/store/inventorySlice.jsx:61-69 | empty lists, both flags down, total 0, no error |
| InventorySlice.SetFlag | frontend/inventory-frontend/src/store/inventorySlice.jsx:74-77 | the three list loads use the shared loading flag and every other request the action flag; nothing else changes |
| InventorySlice.AppendComposition | frontend/inventory-frontend/src/store/inventorySlice.jsx:135-139 | the composition goes at the end of the product's list, which is created when absent; id, name and price unchanged |
| InventorySlice.DropComposition | frontend/inventory-frontend/src/store/inventorySlice.jsx:149-152 | a product without a list is left alone; otherwise the composition is gone and every other one stays |
| InventorySlice.Apply | frontend/inventory-frontend/src/store/inventorySlice.jsx:81-196 | each payload changes only its own list (suggestions with total, products, or raw materials) and never the flags or error; a products or raw-materials load replaces that list wholesale with the response, and a create appends the response to its list |
| InventorySlice.Step | frontend/inventory-frontend/src/store/inventorySlice.jsx:71-200 | pending raises its flag and clears the error; rejected lowers the flag and records the message; fulfilled lowers the flag and keeps the error; clearError only clears the error |
| InventorySlice.SuggestionsDefaults | frontend/inventory-frontend/src/store/inventorySlice.jsx:81-85 | a report without lines or without a total gives an empty list or a zero total; otherwise they are copied |
| InventorySlice.PendingThenRejected | frontend/inventory-frontend/src/store/inventorySlice.jsx:74-89 | a failed request leaves every list and the total as before, drops its flag and reports the message |
| InventorySlice.FetchCompletionClearsLoading | frontend/inventory-frontend/src/store/inventorySlice.jsx:74-162 | for any state and any two list loads in flight, the flag is up, and the first to complete lowers it although the other is still pending |
| InventorySlice.SharedLoadingFlag | frontend/inventory-frontend/src/store/inventorySlice.jsx:80-99 | example: the report arriving clears the loading flag although the product list requested after it is still in flight |
| InventorySlice.DeleteProductEffect | frontend/inventory-frontend/src/store/inventorySlice.jsx:122-126 | deleting removes every product with the id and keeps all others |
| InventorySlice.DeleteProductIdempotent | frontend/inventory-frontend/src/store/inventorySlice.jsx:122-126 | deleting twice is deleting once |
| InventorySlice.CreateThenDeleteRestores | frontend/inventory-frontend/src/store/inventorySlice.jsx:101-126 | creating a product with a new id and deleting it restores the list |
| InventorySlice.UpdateProductEffect | frontend/inventory-frontend/src/store/inventorySlice.jsx:111-116 | an update replaces the first product with the id; an unknown id changes nothing |
| InventorySlice.CompositionAddedEffect | frontend/inventory-frontend/src/store/inventorySlice.jsx:132-140 | the composition is appended to the first product with the id, creating its list if absent; other products unchanged |
| InventorySlice.CompositionRemovedEffect | frontend/inventory-frontend/src/store/inventorySlice.jsx:146-153 | only the first product with the id changes, and only if it has a list, which then lacks the composition |
| InventorySlice.ProductIdsStayUnique | frontend/inventory-frontend/src/store/inventorySlice.jsx:101-153 | product ids stay unique through any step whose payload respects them |
| InventorySlice.NoRejectionNoError | frontend/inventory-frontend/src/store/inventorySlice.jsx:70-200 | only a rejection sets the error |
| InventorySlice.RawMaterialIdsStayUnique | frontend/inventory-frontend/src/store/inventorySlice.jsx:159-196 | raw-material ids stay unique through any step whose payload respects them |
| InventorySlice.ProductCreatedEffect | frontend/inventory-frontend/src/store/inventorySlice.jsx:91-109 | a created product is appended after the existing ones and the raw materials are untouched; a products or raw-materials load replaces that list with the response |
| InventorySlice.RawMaterialCreatedEffect | frontend/inventory-frontend/src/store/inventorySlice.jsx:169-173 | a created material is appended and the products are untouched |
| InventorySlice.RawMaterialUpdatedEffect | frontend/inventory-frontend/src/store/inventorySlice.jsx:180-185 | an update replaces the first material with the id; an unknown id changes nothing |
| InventorySlice.RawMaterialDeletedEffect | frontend/inventory-frontend/src/store/inventorySlice.jsx:192-196 | deleting removes every material with the id, keeps the others, and is idempotent |
| InventorySlice.LastResponseWins | frontend/inventory-frontend/src/store/inventorySlice.jsx:91-95 | of two product-list loads in flight, the one resolving last determines the list |
| ProductionDashboard.TotalUnits | frontend/src/pages/ProductionDashboard.jsx:14 | the sum of the lines' quantities, a missing one counting as zero: the last line adds its quantity or 0 to the sum of the others, and a report whose lines carry none shows 0 units |
| ProductionDashboard.TotalUnitsAppend | frontend/src/pages/ProductionDashboard.jsx:14 | the unit count of a concatenation is the sum of the counts |
| ProductionDashboard.TotalUnitsSingle | frontend/src/pages/ProductionDashboard.jsx:14 | one line contributes its quantity, or 0 when it has none |
| ProductionDashboard.TotalUnitsNonNegative | frontend/src/pages/ProductionDashboard.jsx:14 | the unit count is non-negative when the quantities present are |
| ProductionDashboard.TotalUnitsExample | frontend/src/pages/ProductionDashboard.jsx:14 | 20 and 5 units make 25; a line without a quantity counts 0 |
| ProductionDashboard.MaxSubtotal | frontend/src/pages/ProductionDashboard.jsx:15 | 1 for no lines, otherwise a subtotal no line exceeds |
| ProductionDashboard.BestIndex | frontend/src/pages/ProductionDashboard.jsx:16-18 | the reduce picks a line with the largest subtotal after which every line is strictly smaller |
| ProductionDashboard.Best | frontend/src/pages/ProductionDashboard.jsx:16-18 | null iff there are no lines; otherwise that last largest line |
| ProductionDashboard.LastMaxUnique | frontend/src/pages/ProductionDashboard.jsx:16-18 | there is only one last largest line, so the best line is determined by the subtotals |
| ProductionDashboard.BestIsMax | frontend/src/pages/ProductionDashboard.jsx:15-18 | the best line's subtotal is the bar scale |
| ProductionDashboard.TieGoesToLater | frontend/src/pages/ProductionDashboard.jsx:17 | two lines with equal subtotals: the later one is best |
| ProductionDashboard.IsBest | frontend/src/pages/ProductionDashboard.jsx:144 | with no best line nothing is highlighted |
| ProductionDashboard.HighlightIsByName | frontend/src/pages/ProductionDashboard.jsx:144 | once a card is highlighted, another is highlighted exactly when it has the same product name |
| ProductionDashboard.SameNameHighlighted | frontend/src/pages/ProductionDashboard.jsx:144 | highlighting compares names, so a smaller line sharing the best line's name is highlighted too |
| ProductionDashboard.Pct | frontend/src/pages/ProductionDashboard.jsx:145 | 0 when the scale is not positive; within [0,100] for a value between 0 and the scale; exactly 100 iff the value is the scale |
| ProductionDashboard.BarsWithinRange | frontend/src/pages/ProductionDashboard.jsx:145 | with non-negative subtotals every bar is between 0 and 100 |
| ProductionDashboard.BestBarIsFull | frontend/src/pages/ProductionDashboard.jsx:144-145 | the best line's bar is full when the largest value is positive |
| RawMaterialsPage.IsLow | frontend/inventory-frontend/src/pages/RawMaterialsPage.jsx:14-15 | a material is low exactly when it is not adequate (stock not above 10); no stock at all is low |
| RawMaterialsPage.LowStock | frontend/inventory-frontend/src/pages/RawMaterialsPage.jsx:14 | the low-stock card counts at most every material; 0 iff none is low, and all of them iff all are low |
| RawMaterialsPage.Adequate | frontend/inventory-frontend/src/pages/RawMaterialsPage.jsx:15 | the adequate card counts at most every material; 0 iff none is above 10, and all of them iff all are |
| RawMaterialsPage.LowAndAdequatePartition | frontend/inventory-frontend/src/pages/RawMaterialsPage.jsx:14-15 | every material is counted by exactly one of the two cards |
| RawMaterialsPage.CountsAppend | frontend/inventory-frontend/src/pages/RawMaterialsPage.jsx:14-15 | both counts add up over a concatenation |
| RawMaterialsPage.ThresholdIsInclusive | frontend/inventory-frontend/src/pages/RawMaterialsPage.jsx:86 | a stock of 10 is low, a stock of 11 is not |
| RawMaterialsPage.CountsExample | frontend/inventory-frontend/src/pages/RawMaterialsPage.jsx:14-15 | stocks 100, 8 and 200 give 1 low and 2 adequate |
| RawMaterialsPage.MaxStock | frontend/inventory-frontend/src/pages/RawMaterialsPage.jsx:16 | 1 for no materials, otherwise a stock no material exceeds |
| RawMaterialsPage.Pct | frontend/inventory-frontend/src/pages/RawMaterialsPage.jsx:87 | 0 when the scale is not positive; within [0,100] for a stock between 0 and the scale; exactly 100 iff the stock is the scale |
| RawMaterialsPage.BarsWithinRange | frontend/inventory-frontend/src/pages/RawMaterialsPage.jsx:16-87 | with non-negative stocks every bar is between 0 and 100, and the largest stock fills its bar |
| RawMaterialsPage.Badge | frontend/inventory-frontend/src/pages/RawMaterialsPage.jsx:128-136 | "Baixo" iff the material is low, otherwise "Adequado" |
| RawMaterialsPage.BadgesMatchCards | frontend/inventory-frontend/src/pages/RawMaterialsPage.jsx:14-136 | the rows badged low are the low count and the rows badged adequate are the adequate count |
| ProductionView.UnitsOfReport | frontend/src/pages/ProductionDashboard.jsx:14 | the dashboard's unit count over the report equals the plan's total units |
| ProductionView.DashboardShowsPlan | frontend/inventory-frontend/src/store/inventorySlice.jsx:81-85 | loading the computed report gives the dashboard the plan's lines, a total equal to the plan's value, and the plan's units |

## Left out

- HTTP: the thunks' requests, the controllers and the JSON (de)serialisation are not modelled. A
  request's outcome enters the model as a `Fulfilled` payload or a `Rejected` message.
- Persistence: JPA, transactions and the repositories' queries are not modelled. The store is a
  value, and a failing operation returns no new store, as a rolled-back transaction would.
- `findAll` and `findByIdAsDto` of both services are not modelled: each is a conversion of
  modelled results.
- Floating point: stock is an integer and prices are exact reals. Fractional stock and double
  rounding in `available / required` and in `quantity * price` are not modelled. Integer stock is
  modelled exactly only while it stays below 2^53, where every integer is a `Double`; above that
  the Java division and cast may round differently from the exact quotient used here.
- Controller bean validation (for example a positive composition quantity) is not modelled; the
  services accept any value the controller lets through.
- ProductService.Save: takes only a name and a price and always inserts under a fresh id. An `id`
  in the request body is not modelled: `productRepository.save` would then merge over the stored
  row, and `orphanRemoval` would drop that product's stored compositions when the body carries
  none. Nested compositions in a create body are not modelled either (the frontend never sends
  them).
- RawMaterialService.Save: always inserts under a fresh id. An `id` in the request body is not
  modelled: the body binds to the entity, and `rawMaterialRepository.save` would then merge the
  name and stock over the stored row with that id (or insert it when absent) instead of creating
  a new one.
- ProductionService.Allocate / CalculateSuggestedProduction: use the corrected exact deduction
  `Deduct`, not the `int` multiplication of the Java code, so they differ from it whenever
  `requiredQuantity * maxQuantity` exceeds the `int` range (see Findings; the as-written
  deduction is `ProductionService.DeductAsWritten`).
- A product whose composition list is null is not modelled on the backend: entities loaded
  through the repository always carry a list.
- The error response's timestamp is a clock reading and is left out.
- The raw-material foreign-key refusal is an assumption about the schema, not service code. The
  service deletes by id and the database rejects a referenced row, which the handler reports as 500.
- Rendering, icons, CSS and the `useEffect` dispatches are left out; only the derived values are
  modelled.
- ProductionService.Allocate / CalculateSuggestedProduction: do not model a composition with a
  non-positive requirement whose raw material is missing from the table. The Java code throws a
  `NullPointerException` at line 54 only when a product holding such a composition is assigned a
  positive quantity; a product skipped at line 50 yields a normal report. The model excludes every
  such composition through `ZeroRequirementsResolve`, which `StockAfter` and the `Allocate`
  lemmas require as well. The raw-material foreign key (`Entities.Valid`) means none can occur in
  the table `StockOf` reads (`ProductionService.ValidStoreResolves`).
- Concurrency: requests interleave only as a sequence of actions to `Run`; there is no
  scheduling model.
- The dashboard's `total = 0` and `suggestions = []` destructuring defaults are not modelled:
  the slice always holds both.
- When the rejected action carries no message, the JavaScript error is `undefined`. The model
  always carries a string.

## Findings

| source | as written | input that shows it | evidently intended | confidence | as-written member | corrected member |
|---|---|---|---|---|---|---|
| backend/src/main/java/com/example/project_inventory/domain/service/ProductionService.java:53 | `comp.getRequiredQuantity() * maxQuantity` multiplies two `int`s, which wraps before being widened to `double` | stock 3000000000 of a material needed 2 per unit: quantity 1500000000, and the product 3000000000 wraps to -1294967296, so the stock becomes 4294967296 instead of 0 | the deduction equals required quantity times the quantity produced | not executed | ProductionService.DeductAsWrittenOverflows | ProductionService.Deduct |
