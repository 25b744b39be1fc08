# Shoppi shopping list — a verified model of its data core

Shoppi is a bilingual (Hebrew/English) shopping-list web application. A
catalog of products is grouped into sections; the *main cart* maps product ids
to entries holding a quantity and a checked flag; legacy *named carts* hold
lists of entries. This project models, in Dafny, the parts of the application
that decide what is stored and what is shown:

- the server-side store (`Store.DBHandler`): one document held in memory and
  written to a JSON file after each change, except the main-cart upsert and
  removal (see the finding at src/app/api/dbHandler.ts:115-123). The file is the ghost field
  `persisted`; a write followed by a reread is `persisted := db`;
- the aggregate endpoint `GET /api` (`AggregateRoute`): the sections indexed
  by id, the catalog sorted by section order and name;
- the main-cart endpoint `/api/mainCart` (`MainCartRoute`): id validation,
  upsert (POST and PUT), removal (DELETE);
- the two client-side stores, `ClientStore.DBProvider` (maps) and
  `ProductsState.ProductsProvider` (a product list). Both change their state
  first and then call the server. Server calls are appended to `outbox`. The
  server's answer is the parameter `accepted`. Notifications go to `notices`;
- the views: the cart page (`CartPage`), the catalog page (`CatalogPage`) and
  the sections page (`SectionsPage`);
- the locale proxy (`LocaleProxy`).

Shared pieces: `Text` models `startsWith`, `includes`, `toLowerCase` and
`localeCompare`. `Sorting` is an insertion sort proved to return a sorted
permutation for any total preorder. `Keyed` models `find`, `filter`, the
replace-by-id `map` and the "assign each element to `m[key]`" loops. `Model`
holds the records.

`localeCompare` is modelled as code-point lexicographic order (`Text.StrLeq`).
The general proofs use only that it is total, transitive and
antisymmetric. The worked examples (`AggregateRoute.SortScenario`,
`ProductOrder.CompareAsWrittenInconsistent`,
`CartPage.CartCompareAsWrittenAsymmetric`) also rely on concrete code-point
comparisons of their ASCII names, where `localeCompare` agrees.
`toLowerCase` folds the ASCII letters only.

The first section created without an order gets order 1, not 0
(`src/app/api/dbHandler.ts:76-81`): the reduce starts from 0 and the store
adds 1. The model follows the code (`Store.DefaultOrderAfterAll`).

The aggregate comparator first compares `a.quantity === 0`
(`src/app/api/route.ts:21-25`). `quantity` is not a product field
(`src/app/lib/interfaces.ts:6`), so both sides are `undefined === 0`, which is
false, and the key never separates two products. The model leaves it out of
the comparator.

## Model

| member | source | states |
|---|---|---|
| Text.ContainsIffOccurs | src/proxy.ts:34 | `includes` holds exactly when the text occurs at some position of the string |
| Text.ContainsEmpty | src/app/page.tsx:270-273 | every string includes the empty search text |
| Text.StrLeqReflexive | src/app/api/route.ts:32 | the name order is reflexive |
| Text.StrLeqTotal | src/app/api/route.ts:32 | any two names are comparable |
| Text.StrLeqTransitive | src/app/api/route.ts:32 | the name order is transitive |
| Text.StrLeqAntisymmetric | src/app/api/route.ts:32 | two names that each sort before the other are equal |
| Text.StrCompare | src/app/api/route.ts:32 | `localeCompare` is 0 exactly for equal names, at most 0 exactly when the first sorts first, and within -1..1 |
| Sorting.Insert | src/app/api/route.ts:19 | inserting adds exactly one occurrence of the element |
| Sorting.SortBy | src/app/api/route.ts:19 | the sorted list is a permutation of the input |
| Sorting.InsertSorted | src/app/api/route.ts:19 | inserting into a sorted list keeps it sorted under a total preorder |
| Sorting.SortBySorted | src/app/api/route.ts:19 | the sort returns a list sorted under any total preorder |
| Keyed.FirstIndex | src/app/api/dbHandler.ts:47-49 | `find` returns the first element with the key, and nothing exactly when no element has it |
| Keyed.RemoveKey | src/app/api/dbHandler.ts:60-62 | the filter keeps exactly the elements whose key differs, and never lengthens the list |
| Keyed.RemoveKeyAppend | src/app/api/dbHandler.ts:60-62 | filtering distributes over concatenation, so kept elements stay in their relative order |
| Keyed.RemoveKeyAbsent | src/app/api/dbHandler.ts:58-65 | deleting an id no element has changes nothing |
| Keyed.RemoveKeyIdempotent | src/app/api/dbHandler.ts:58-65 | deleting the same id twice equals deleting it once |
| Keyed.ReplaceKey | src/app/Providers/ProductsProvider.tsx:101-105 | the replace-by-id map keeps the length |
| Keyed.ReplaceKeyAt | src/app/Providers/ProductsProvider.tsx:101-105 | each position holds the new element when its id matches and the old one otherwise |
| Keyed.ReplaceKeyAbsent | src/app/Providers/ProductsProvider.tsx:101-105 | replacing by an id no element has changes nothing |
| Keyed.IndexBy | src/app/api/route.ts:13-16 | the map's keys are exactly the elements' keys, and each key holds an element with that key |
| Keyed.IndexByLastWins | src/app/api/route.ts:13-16 | for repeated keys the last element wins; the same loop keys the loaded products (src/app/providers/DBProvider.tsx:61-64) |
| Keyed.BuildIndex | src/app/api/route.ts:13-16 | the assignment loop builds exactly `IndexBy` |
| Keyed.Filter | src/app/page.tsx:270 | `filter` keeps exactly the elements that satisfy the predicate |
| Keyed.FilterAll | src/app/products/page.tsx:358-359 | when every element satisfies the predicate, the filter returns the list unchanged |
| Model.UpsertKeepsKeys | src/app/api/dbHandler.ts:116 | storing an entry under its own id keeps every cart entry under its own id |
| Model.RemovingListedEmpties | src/app/page.tsx:301-306 | removing the id of every listed value empties a well-keyed cart |
| ProductOrder.OrderNameTotal | src/app/api/route.ts:27-32 | any two (section order, name) keys are comparable |
| ProductOrder.OrderNameTransitive | src/app/api/route.ts:27-32 | the (section order, name) order is transitive |
| ProductOrder.SortProducts | src/app/api/route.ts:19-33 | the corrected sort of the catalog by `SortBy`; its order and permutation are stated by `SortProductsOrdered` |
| ProductOrder.ProductRelIsTotalPreorder | src/app/api/route.ts:27-32 | the corrected product order is a total preorder |
| ProductOrder.SortProductsOrdered | src/app/api/route.ts:19-33 | the sorted catalog is a permutation with section orders ascending (999 when unset or unknown) and names ascending within one order |
| ProductOrder.CompareAsWritten | src/app/api/route.ts:27-32 | the comparator as written: it fails exactly when two products of different sections meet and one section is missing; within one section its sign is the name order, 0 exactly for equal names |
| ProductOrder.CompareAsWrittenThrowsOnMissingSection | src/app/api/route.ts:28 | the comparator as written fails on a product whose section does not exist |
| ProductOrder.CompareAsWrittenInconsistent | src/app/api/route.ts:27-32 | the comparator as written ties a with b and b with c but orders c before a |
| ProductOrder.CorrectedAgreesWithAsWritten | src/app/api/route.ts:27-32 | wherever the comparator as written gives a strict answer, the corrected order gives the same one |
| Store.MergeWholeProduct | src/app/api/dbHandler.ts:53 | updating with a whole product makes the stored record that product |
| Store.MergeProduct | src/app/api/dbHandler.ts:53 | `Object.assign` on a product: each field present in the body overwrites, the others stay; `MergeWholeProduct` states the whole-body case |
| Store.MergeSection | src/app/api/dbHandler.ts:94 | `Object.assign` on a section, field by field as for products |
| Store.MergeCart | src/app/api/dbHandler.ts:144 | `Object.assign` on a named cart, field by field |
| Store.MergeItem | src/app/api/dbHandler.ts:176 | `Object.assign` on a cart entry, field by field |
| Store.MaxOrder | src/app/api/dbHandler.ts:77-79 | the reduce over the sections, an unset order counting as 0; its bounds are stated by `MaxOrderBounds` |
| Store.WithDefaultOrder | src/app/api/dbHandler.ts:76-81 | the section `createSection` stores; its ranking is stated by `DefaultOrderAfterAll` |
| Store.MaxOrderBounds | src/app/api/dbHandler.ts:77-79 | the reduce is 0 or the largest order present, and bounds every order |
| Store.DefaultOrderAfterAll | src/app/api/dbHandler.ts:76-81 | a section created without an order ranks after every existing one, and the first gets 1; a given order is kept |
| Store.TotalQuantityAppend | src/app/api/dbHandler.ts:158 | appending an entry adds its quantity to the cart total |
| Store.TotalQuantityUpdate | src/app/api/dbHandler.ts:156 | changing one entry changes the total by the difference |
| Store.AddToItemsSpec | src/app/api/dbHandler.ts:153-159 | adding an item adds its quantity to the total, makes its id present, and never duplicates an id |
| Store.AddToItems | src/app/api/dbHandler.ts:153-159 | `addCartItem` on a list: add the quantity onto the first entry with the id, or append; stated by `AddToItemsSpec` |
| Store.FindCart | src/app/api/dbHandler.ts:134 | the found position holds a cart with the id, and nothing is found exactly when no cart has it |
| Store.FindItem | src/app/api/dbHandler.ts:173 | the found position holds an entry with the id in the found cart, and nothing is found exactly when the cart or the entry is missing |
| Store.DBHandler.constructor | src/app/api/dbHandler.ts:15-23 | the store starts from the file's document |
| Store.DBHandler.UpdateDB | src/app/api/dbHandler.ts:25-32 | writing and rereading leaves the document as it was and the file equal to it |
| Store.DBHandler.GetDB | src/app/api/dbHandler.ts:34-36 | returns the document |
| Store.DBHandler.CreateProduct | src/app/api/dbHandler.ts:41-44 | appends the product with no uniqueness check; everything else unchanged; file written |
| Store.DBHandler.UpdateProduct | src/app/api/dbHandler.ts:46-56 | an unknown id gives "product not found" and no change; otherwise the first match is merged and returned, the rest unchanged |
| Store.DBHandler.DeleteProduct | src/app/api/dbHandler.ts:58-65 | removes every product with the id, keeping the others in order |
| Store.DBHandler.GetSections | src/app/api/dbHandler.ts:70-72 | returns the section list |
| Store.DBHandler.CreateSection | src/app/api/dbHandler.ts:74-85 | appends the section, with max+1 as order when it has none, and returns what was stored |
| Store.DBHandler.UpdateSection | src/app/api/dbHandler.ts:87-97 | an unknown id gives "section not found" and no change; otherwise the first match is merged |
| Store.DBHandler.DeleteSection | src/app/api/dbHandler.ts:99-106 | removes every section with the id; products keep their section ids |
| Store.DBHandler.GetMainCart | src/app/api/dbHandler.ts:111-113 | returns the main cart |
| Store.DBHandler.AddItemToCart | src/app/api/dbHandler.ts:115-118 | stores the item under its id, changes no other key, returns it, and leaves the file unwritten |
| Store.DBHandler.RemoveItemFromCart | src/app/api/dbHandler.ts:120-123 | deletes only that key, returns its argument, and leaves the file unwritten |
| Store.DBHandler.AddItemToCartPersisted | src/app/api/dbHandler.ts:115-118 | the same upsert, after which the file equals the document |
| Store.DBHandler.RemoveItemFromCartPersisted | src/app/api/dbHandler.ts:120-123 | the same removal, after which the file equals the document |
| Store.DBHandler.AddNewCart | src/app/api/dbHandler.ts:128-131 | appends the named cart |
| Store.DBHandler.GetCart | src/app/api/dbHandler.ts:133-135 | returns the first cart with the id, and nothing exactly when none has it |
| Store.DBHandler.UpdateCart | src/app/api/dbHandler.ts:137-147 | an unknown cart gives "cart not found" and no change; otherwise the cart is merged and returned |
| Store.DBHandler.AddCartItem | src/app/api/dbHandler.ts:149-163 | an unknown cart gives "cart not found"; otherwise the quantity is added to an existing entry or the item appended |
| Store.DBHandler.UpdateCartItem | src/app/api/dbHandler.ts:165-179 | an unknown cart or item gives "cart not found" or "item not found" and no change; otherwise the first entry with the id is merged |
| Store.DBHandler.RemoveCartItem | src/app/api/dbHandler.ts:181-188 | an unknown cart gives "cart not found"; otherwise every entry with the id is filtered out |
| Store.DBHandler.ClearCart | src/app/api/dbHandler.ts:190-197 | an unknown cart gives "cart not found"; otherwise its item list is emptied |
| Store.CartWriteNotPersisted | src/app/api/dbHandler.ts:115-118 | as written, after adding an entry to an empty store the memory holds it and the file does not (the finding at src/app/api/dbHandler.ts:115-123) |
| Store.CartWritePersisted | src/app/api/dbHandler.ts:115-118 | with the write added, the file holds the entry (the correction of the finding at src/app/api/dbHandler.ts:115-123) |
| AggregateRoute.BodyAsWrittenNotLoadable | src/app/api/route.ts:40-43 | the body as written never carries the main cart the client loads; the declared body always does |
| AggregateRoute.BodyAsWritten | src/app/api/route.ts:40-43 | the body as written: items and sections only; stated by `BodyAsWrittenNotLoadable` |
| AggregateRoute.Body | src/app/lib/interfaces.ts:48-52 | the body the response interface declares, with the main cart |
| AggregateRoute.Respond | src/app/api/route.ts:35-43 | 404 "No items found" exactly when there is no product list; otherwise 200 with the items, the sections and the main cart (the correction of the finding at src/app/api/route.ts:40-43) |
| AggregateRoute.Get | src/app/api/route.ts:10-43 | sorts the stored products in place, a permutation, and answers with them, the sections map and the main cart; the file is not written |
| AggregateRoute.SortScenario | src/app/api/route.ts:19-33 | with B (order 0) before A (order 1): Apple and Zed of B, then Mid of A |
| MainCartRoute.Upsert | src/app/api/mainCart/route.ts:16-31 | an unparsable body gives 500; a missing or empty id gives 400 and no change; otherwise the entry is stored under its id, other keys unchanged |
| MainCartRoute.Remove | src/app/api/mainCart/route.ts:52-64 | a missing or empty id gives 400 and no change; otherwise only that key goes and `{id, 0, false}` is returned |
| MainCartRoute.PutIsPost | src/app/api/mainCart/route.ts:34-49 | PUT changes the cart exactly as POST does, with the same reply unless the body cannot be parsed |
| MainCartRoute.UpsertKeepsCartWellKeyed | src/app/api/mainCart/route.ts:24 | the upsert keeps every entry under its own id |
| MainCartRoute.RemoveAfterUpsert | src/app/api/mainCart/route.ts:61-64 | deleting right after upserting an id leaves the cart as deleting alone would |
| MainCartRoute.Get | src/app/api/mainCart/route.ts:5-8 | answers with the current cart and changes nothing |
| MainCartRoute.UpsertRequest | src/app/api/mainCart/route.ts:18-26 | the new cart and reply are those of `Upsert`; only a stored entry writes the file |
| MainCartRoute.Post | src/app/api/mainCart/route.ts:16-31 | the new cart and reply are those of `Upsert` with the POST failure message |
| MainCartRoute.Put | src/app/api/mainCart/route.ts:34-49 | the new cart and reply are those of `Upsert` with the PUT failure message |
| MainCartRoute.Delete | src/app/api/mainCart/route.ts:52-69 | the new cart and reply are those of `Remove` |
| Client.Report | src/app/providers/DBProvider.tsx:101-107 | the success notice exactly when the call was accepted, the failure notice otherwise |
| Client.FailureOnly | src/app/providers/DBProvider.tsx:226-232 | no notice exactly when the call was accepted |
| ClientStore.CascadeDelete | src/app/providers/DBProvider.tsx:137-144 | the product's cart entry goes, every other entry stays as it was |
| ClientStore.DeleteKeepsCartWithinCatalog | src/app/providers/DBProvider.tsx:128-150 | deleting a product with its cart entry keeps every cart entry pointing at a known product |
| ClientStore.UpsertKeepsCartWithinCatalog | src/app/providers/DBProvider.tsx:99 | creating or updating a product keeps every cart entry pointing at a known product |
| ClientStore.DBProvider.constructor | src/app/providers/DBProvider.tsx:47-50 | empty maps, an empty cart, not loading |
| ClientStore.DBProvider.Send | src/app/providers/DBProvider.tsx:101-102 | records the call and reports whether the server accepted it |
| ClientStore.DBProvider.LoadDB | src/app/providers/DBProvider.tsx:55-73 | a fetched response replaces products (keyed by id), sections and cart; a failed fetch keeps them; loading ends |
| ClientStore.DBProvider.CreateProduct | src/app/providers/DBProvider.tsx:97-110 | sets the product's key, other keys unchanged, whatever the server answers; one call; success or failure notice |
| ClientStore.DBProvider.UpdateProduct | src/app/providers/DBProvider.tsx:112-126 | sets the product's key, other keys unchanged, whatever the server answers |
| ClientStore.DBProvider.DeleteProduct | src/app/providers/DBProvider.tsx:128-161 | removes the product and its cart entry if any, calling the cart removal only then and before the delete |
| ClientStore.DBProvider.CreateSection | src/app/providers/DBProvider.tsx:166-179 | sets the section's key only |
| ClientStore.DBProvider.UpdateSection | src/app/providers/DBProvider.tsx:181-193 | sets the section's key only |
| ClientStore.DBProvider.DeleteSection | src/app/providers/DBProvider.tsx:195-211 | removes only the section's key |
| ClientStore.DBProvider.AddCartItem | src/app/providers/DBProvider.tsx:216-236 | upserts the entry under its id; only a failure is notified |
| ClientStore.DBProvider.UpdateCartItem | src/app/providers/DBProvider.tsx:238-258 | the same upsert as adding; only a failure is notified |
| ClientStore.DBProvider.RemoveCartItem | src/app/providers/DBProvider.tsx:260-279 | deletes only that key, nothing when absent; only a failure is notified |
| ProductsState.ProductsProvider.constructor | src/app/Providers/ProductsProvider.tsx:39-41 | an empty list and map, not loading |
| ProductsState.ProductsProvider.Send | src/app/Providers/ProductsProvider.tsx:88-89 | records the call and reports whether the server accepted it |
| ProductsState.ProductsProvider.LoadDB | src/app/Providers/ProductsProvider.tsx:46-60 | replaces the list and the sections wholesale; a failed fetch keeps them |
| ProductsState.ProductsProvider.CreateProduct | src/app/Providers/ProductsProvider.tsx:84-97 | appends, so the length grows by one even for a known id |
| ProductsState.ProductsProvider.UpdateProduct | src/app/Providers/ProductsProvider.tsx:99-117 | replaces every product with the id, keeping length and positions |
| ProductsState.ProductsProvider.DeleteProduct | src/app/Providers/ProductsProvider.tsx:119-131 | removes every product with the id, keeping the others in order |
| ProductsState.ProductsProvider.CreateSection | src/app/Providers/ProductsProvider.tsx:137-150 | sets the section's key only |
| ProductsState.ProductsProvider.UpdateSection | src/app/Providers/ProductsProvider.tsx:152-164 | sets the section's key only |
| ProductsState.ProductsProvider.DeleteSection | src/app/Providers/ProductsProvider.tsx:166-182 | removes only the section's key |
| CartPage.FilterCart | src/app/page.tsx:270-273 | keeps exactly the entries whose product name or section name includes the search text, ignoring case |
| CartPage.EmptySearchKeepsKnown | src/app/page.tsx:270-273 | an empty search keeps every entry with a known product, and an unknown product only through a section keyed "undefined" |
| CartPage.Matches | src/app/page.tsx:271-272 | the filter test: the product's name or its section's name includes the search, ignoring case |
| CartPage.EntryOrder | src/app/page.tsx:280 | `sections[products[id]?.section]?.order ?? 999` |
| CartPage.EntryName | src/app/page.tsx:281 | the product's name; an unknown product sorts as the empty name (the correction of the finding at src/app/page.tsx:277-286) |
| CartPage.CartLeq | src/app/page.tsx:277-286 | the corrected cart order: unchecked first, then section order, then name; stated by `CartRelIsTotalPreorder` and `SortCartOrdered` |
| CartPage.CartCompareAsWritten | src/app/page.tsx:277-286 | the cart comparator as written, including `localeCompare(undefined)` and the fallback that turns `undefined` into 0 |
| CartPage.CartCompareAsWrittenAsymmetric | src/app/page.tsx:280-281 | a known "zebra" sorts after an entry whose product is unknown, yet that entry ties with it: the comparator as written is not consistent |
| CartPage.CartCorrectedAgreesOnKnown | src/app/page.tsx:277-286 | for entries with known products the corrected order is exactly the comparator's `<= 0` |
| CartPage.SortCart | src/app/page.tsx:277-286 | `sortedProducts` under the corrected order: a permutation of the filtered entries; the order is stated by `SortCartOrdered` |
| CartPage.CartRelIsTotalPreorder | src/app/page.tsx:277-286 | the cart comparator is a total preorder |
| CartPage.SortCartOrdered | src/app/page.tsx:277-286 | the sorted entries are a permutation, unchecked before checked, then section order ascending (999 default), then name |
| CartPage.CheckedItems | src/app/page.tsx:289 | exactly the checked entries |
| CartPage.CheckedSuffix | src/app/page.tsx:289 | when no unchecked entry follows a checked one, the checked entries are a suffix |
| CartPage.CheckedItemsAreSuffix | src/app/page.tsx:277-289 | `checkedItems` is exactly the tail of the sorted list after its unchecked entries |
| CartPage.ClearedByCheckSpec | src/app/page.tsx:309-314 | clearing checked items removes an entry exactly when it is checked and matches the search; unchecked entries stay |
| CartPage.Toggled | src/app/page.tsx:118-121 | flips `checked` and keeps id and quantity |
| CartPage.ToggledTwice | src/app/page.tsx:118-121 | toggling twice restores the entry |
| CartPage.RemovalCalls | src/app/page.tsx:302-304 | one call per entry |
| CartPage.RemovalCallsAt | src/app/page.tsx:302-304 | the i-th call removes the i-th entry's id |
| CartPage.RemovalStep | src/app/page.tsx:302-304 | one more removal appends one call, its notices, and one removed id |
| CartPage.RemoveNext | src/app/page.tsx:303 | one loop step removes the next entry's id |
| CartPage.RemoveEach | src/app/page.tsx:302-304 | the loop removes the ids of all given entries, one call each in order |
| CartPage.ClearCart | src/app/page.tsx:301-306 | issues one removal per listed entry, in listing order, with their failure notices; a well-keyed cart ends empty |
| CartPage.ClearCheckedItems | src/app/page.tsx:309-314 | removes exactly the ids of the checked entries the current search shows, with one removal call per such entry in `checkedItems` order and their failure notices |
| CartPage.ToggleChecked | src/app/page.tsx:117-124 | stores and sends the toggled entry as an update; only a failure is notified |
| CatalogPage.FilterCatalog | src/app/products/page.tsx:358-359 | keeps exactly the products whose name includes the search text, ignoring case |
| CatalogPage.EmptySearchShowsAll | src/app/products/page.tsx:358-359 | an empty search shows every product |
| CatalogPage.Catalog | src/app/products/page.tsx:358-367 | `filteredProducts`: filter then the corrected product sort; stated by `CatalogSpec` |
| CatalogPage.CatalogSpec | src/app/products/page.tsx:358-367 | exactly the matching products, section orders ascending, names ascending within an order |
| CatalogPage.Incremented | src/app/products/page.tsx:244-248 | + adds one and keeps id and checked |
| CatalogPage.Decremented | src/app/products/page.tsx:223-231 | − drops the entry exactly when it holds at most one, else leaves one less, at least one |
| CatalogPage.MinusUndoesPlus | src/app/products/page.tsx:221-249 | − after + restores an entry holding at least one |
| CatalogPage.NewEntry | src/app/products/page.tsx:258-263 | the add button creates `{id, 1, unchecked}` |
| CatalogPage.AfterMinus | src/app/products/page.tsx:221-232 | the cart after −: an entry at one or less leaves; otherwise it is stored with one less, checked kept, and every other key is unchanged |
| CatalogPage.ButtonsKeepQuantitiesPositive | src/app/products/page.tsx:215-265 | +, − and add keep every entry of a well-keyed cart at one or more |
| CatalogPage.PressMinus | src/app/products/page.tsx:221-232 | removes the entry at one or less, otherwise updates it with one less; the matching call is sent and only its failure is notified |
| CatalogPage.PressPlus | src/app/products/page.tsx:241-249 | updates the entry with one more; one update call; only a failure is notified |
| CatalogPage.AddToCart | src/app/products/page.tsx:255-265 | offered only for a product not in the cart; adds it with quantity one, unchecked; one add call; only a failure is notified |
| CatalogPage.ConfirmDelete | src/app/products/page.tsx:336-338 | deletes exactly the displayed product with its cart entry; sections unchanged; the cart removal call comes first exactly when the product is in the cart, then the delete call, with its success or failure notice |
| SectionsPage.Normalized | src/app/sections/page.tsx:48-52 | a section without a numeric order gets 999; others are kept |
| SectionsPage.NormalizedAll | src/app/sections/page.tsx:47-52 | normalises every section, keeping the length |
| SectionsPage.SectionRelIsTotalPreorder | src/app/sections/page.tsx:53 | ordering by `order || 0` is a total preorder |
| SectionsPage.SortedSections | src/app/sections/page.tsx:46-54 | the normalised, sorted section list; stated by `SortedSectionsSpec` |
| SectionsPage.SortedSectionsSpec | src/app/sections/page.tsx:46-54 | no response gives no sections; otherwise a permutation of the normalised sections, all with an order, ascending |
| SectionsPage.Moved | src/app/sections/page.tsx:62-64 | the two `splice` calls on a sequence value; stated by `MovedSpec` |
| SectionsPage.MovedSpec | src/app/sections/page.tsx:62-64 | the moved section sits at the destination, the length is kept, the others keep their relative order |
| SectionsPage.Renumbered | src/app/sections/page.tsx:67-70 | every section's order becomes its index, other fields kept |
| SectionsPage.UpdateCalls | src/app/sections/page.tsx:92-94 | one update call per section |
| SectionsPage.UpdateCallsAt | src/app/sections/page.tsx:92-94 | the i-th call updates the i-th section |
| SectionsPage.SectionsView.constructor | src/app/sections/page.tsx:32-37 | no sections, `orderChanged` false |
| SectionsPage.SectionsView.GetSections | src/app/sections/page.tsx:43-57 | shows the normalised, sorted response and clears `orderChanged` |
| SectionsPage.SectionsView.HandleDragEnd | src/app/sections/page.tsx:59-74 | no destination changes nothing; otherwise move, renumber, set `orderChanged` |
| SectionsPage.SectionsView.SaveOrderChanges | src/app/sections/page.tsx:90-97 | one update per section in list order, then `orderChanged` cleared and the list refetched; a rejected update stops the loop and changes nothing else |
| LocaleProxy.DetectLocale | src/proxy.ts:26-39 | "en" exactly when the header contains "en" and not "he"; "he" without a header or with "he"; always "he" or "en" |
| LocaleProxy.Proxy | src/proxy.ts:12-51 | asset paths are skipped exactly; with the cookie the request passes on; otherwise the detected locale is set for 31536000 seconds on path "/" |
| LocaleProxy.ProxyExamples | src/proxy.ts:4-18 | the service worker and icons are skipped; a fresh page visit without a header gets "he" |

## Left out

- File I/O: reading and writing `products.json` is modelled by the ghost field `persisted`. The module-level singleton store is left out.
- `LocaleProxy.Proxy`: the route filter (`config.matcher` in src/proxy.ts:53-58, which keeps the proxy off `/api` and `_next` paths) is not modelled; the model applies the proxy to every path it is given.
- A document that failed to load. The store always holds a document, so the 404 branch of `GET /api` exists only in `AggregateRoute.Respond`. The `?.` guards on `db` in the store are left out.
- HTTP plumbing, headers and the `NextResponse` objects. Responses are status/payload values. The 500 branches of `GET /api/mainCart` and `DELETE /api/mainCart` need a throwing `getDB` or URL parser, and are not modelled.
- Polling, debounce, timers, React rendering, swipe and drag gestures, and the interleaving of asynchronous calls. Every operation runs to completion before the next one starts.
- Notifications are recorded by dictionary key; the translated text is not modelled.
- `Text.StrLeq`: `localeCompare` is modelled as code-point order. `Text.Lower`: `toLowerCase` folds only the ASCII letters.
- The inert quantity key of the aggregate comparator (see above).
- Sort stability is not stated. Both comparators in the source are replaced by their corrected orders (see Findings), and equal keys may come in any order.
- `SectionsPage.SectionsView.HandleDragEnd`: the drag library's indices are assumed valid (`requires`). The two `splice` calls are modelled on sequence values, not on a JavaScript array.
- `SectionsPage.SectionsView.SaveOrderChanges`: the refetch at the end is the parameter `refreshed`. A failed `fetchSections` (an unhandled rejection) is not modelled.
- The sections page's create, edit and delete dialogs (`confirmDeleteSection`) only call the API and refetch; they are not modelled.
- `CartPage.ClearCart` and `CartPage.ClearCheckedItems` take `Object.values(mainCart.products)` as a parameter `listing` that holds exactly the cart's values. Dafny does not fix the order of a map's values.
- `MainCartRoute`: the routes use the store's `*Persisted` operations, the corrected form of the finding at src/app/api/dbHandler.ts:115-123.
- `MainCartRoute.Upsert`: only well-typed bodies (an optional id, a quantity and a checked flag) are modelled. The source stores any parsed body that has an id, whatever its other fields.
- `ClientStore.DBProvider.LoadDB` requires a response that carries the main cart, as the response interface declares (the finding at src/app/api/route.ts:40-43).
- `CartPage.EntryName`: an entry whose product is unknown is sorted with an empty name, which is a correction, not the code (the finding at src/app/page.tsx:277-286). In the source, an unknown `a` stops the `?.` chain and `undefined || 0` gives a tie, while a known `a` against an unknown `b` compares its name with the string "undefined". The cart row component also throws on such an entry (`src/app/page.tsx:53`), which is not modelled. Such entries pass the filter only through a section keyed "undefined".

## Findings

| source | as written | input that shows it | evidently intended | confidence | as-written member | corrected member |
|---|---|---|---|---|---|---|
| src/app/api/dbHandler.ts:115-123 | `addItemToCart` and `removeItemFromCart` change the cart in memory but never call `updateDB`, so the file misses main-cart changes until some other write | POST `{id:"p1",quantity:1,checked:false}` to an empty store: the memory holds `p1`, the file does not | every mutation writes the file | high (not executed) | Store.DBHandler.AddItemToCart | Store.DBHandler.AddItemToCartPersisted |
| src/app/api/route.ts:28, src/app/products/page.tsx:362 | the comparator reads `sections[a.section].order` without checking that the section exists, and throws for a product left in a deleted section | sections `{s1}` and products in `s1` and in a deleted section `gone` | an unknown section ranks like a section without an order (999) | high (not executed) | ProductOrder.CompareAsWrittenThrowsOnMissingSection | ProductOrder.SortProductsOrdered |
| src/app/api/route.ts:27-32, src/app/products/page.tsx:360-367 | products in different sections with equal order compare as 0 (the name is not consulted), so the comparator is inconsistent | sections x and y without order; a="b" in x, b="m" in y, c="a" in x: a ties b, b ties c, but c sorts before a | order by section order, then by name | high (not executed) | ProductOrder.CompareAsWrittenInconsistent | ProductOrder.ProductRelIsTotalPreorder |
| src/app/api/route.ts:40-43 | the aggregate body has only `items` and `sections`, though the response interface declares `mainCart` (src/app/lib/interfaces.ts:48-52) and the client stores `response.mainCart` (src/app/providers/DBProvider.tsx:66) | any `GET /api`: the client's main cart becomes `undefined` | the body includes the main cart | medium (not executed) | AggregateRoute.BodyAsWrittenNotLoadable | AggregateRoute.Get |
| src/app/page.tsx:277-286 | when a cart entry's product is unknown, `products[a.id]?.name.localeCompare(...)` is `undefined`, which the trailing fallback turns into 0; a known name compared with an unknown one is compared with the string "undefined"; so the comparator is asymmetric | a known product "zebra" and an unknown id, both unchecked, no sections: compare(zebra, unknown) > 0 but compare(unknown, zebra) == 0 | a consistent order, here with an unknown product named as the empty string | medium (not executed) | CartPage.CartCompareAsWrittenAsymmetric | CartPage.CartRelIsTotalPreorder |
