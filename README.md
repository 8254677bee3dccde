# FashionHub cart, order and payment core in Dafny

FashionHub-Api is an ASP.NET Core shop back end. This project models its cart → order → payment workflow and proves properties of the model. It covers the following parts.

- **Store.** A request-scoped database context holds products, customers, admins, carts, cart items, orders and payments. It is a class, `Data.AppDbContext`, whose tables are `seq` fields and whose payments are a `map` keyed by the processor's intent id. Rows are kept in key order, so the first row a query finds is the one with the smallest key. One counter, `nextId`, issues every key the database would assign.
- **Repositories.** The generic soft-delete repository, the cart, order and product repositories, and the entity query filter that hides soft-deleted products.
- **Services.** The cart service (nine operations), the order service (create, read, list, page, status update) and the payment service (create an intent, confirm a payment and build the paid order). The payment processor is a parameter: a function from an amount in cents to an intent id and client secret, or to an error message, and a lookup result holding the intent's status.
- **Supporting code.** `ServiceResult`, `PagedResult`, the cart, order and product mappers with their DTOs, slug generation, and the seeder's gender mapping.

**How the modelling is done**
- Every state-changing operation X is specified by a pure function (`XStep` or `XOutcome`). That function takes the store before the call and returns the store after it together with the result.
- X's method on the context is proved to produce exactly what that function gives (`ensures Step(db.State(), r) == XOutcome(old(db.State()), …)`).
- The promised properties are lemmas about those functions: guards and their order, what is written, what is left alone, and the round trips between operations.
- A request that returns before `SaveChanges` leaves the store as it was. A request that saves commits everything it tracked.
- A cart that get-or-create adds waits in the context (`addedCarts`) under the unsaved key 0, and no query sees it. The save inserts it under the next key. The save refuses to commit anything when a cart item row would then refer to no stored cart.
- Money is a `real`, because C# `decimal` is exact at these scales.
- Clock readings are `Timestamp` parameters.

## Model

| member | source | states |
|---|---|---|
| ServiceResults.Construct | Application/Models/ServiceResult.cs:12-20 | A null error list leaves the initial empty list; otherwise the list given is kept, with the flag and data as given |
| ServiceResults.Success | Application/Models/ServiceResult.cs:22-25 | Success carries the data and no errors |
| ServiceResults.Failure | Application/Models/ServiceResult.cs:27-30 | Failure carries no data and exactly the one message |
| ServiceResults.FailureAll | Application/Models/ServiceResult.cs:32-35 | Failure carries the given errors in order |
| ServiceResults.ConstructUnit | Application/Models/ServiceResult.cs:44-51 | The non-generic constructor keeps the flag and defaults a null error list to empty |
| ServiceResults.UnitSuccess | Application/Models/ServiceResult.cs:53-56 | The non-generic success has no errors |
| ServiceResults.UnitFailure | Application/Models/ServiceResult.cs:58-61 | The non-generic failure has exactly the one message |
| ServiceResults.UnitFailureAll | Application/Models/ServiceResult.cs:63-66 | The non-generic failure keeps the given errors in order |
| Paging.CeilDiv | Application/Models/PagedResult.cs:21 | The ceiling of n/d for d > 0: (r-1)·d < n ≤ r·d |
| Paging.NewPagedResult | Application/Models/PagedResult.cs:15-22 | Items, page index, page size and total count are stored unchanged, and TotalPages is the least page count covering the total |
| Paging.HasPreviousPage | Application/Models/PagedResult.cs:12 | For a positive page size, there is a previous page exactly when the items before this page fill at least one page |
| Paging.HasNextPage | Application/Models/PagedResult.cs:13 | When TotalPages is the least cover, there is a next page exactly when the items up to the end of this page fall short of the total |
| Paging.EmptyHasNoPages | Application/Models/PagedResult.cs:13 | A total of zero gives zero pages and no next page |
| Paging.TotalPagesIsLeastCover | Application/Models/PagedResult.cs:21 | p pages of pageSize cover totalCount exactly when p ≥ TotalPages |
| Paging.LastPage | Application/Models/PagedResult.cs:12-13 | The last page has no next page, and has a previous page exactly when there is more than one page |
| GenericRepositories.GetAll | Infrastructure/Repositories/GenericRepository.cs:24-32 | Exactly the rows that are not soft-deleted; with no flag, every row in order |
| GenericRepositories.GetById | Infrastructure/Repositories/GenericRepository.cs:34-42 | A visible row with that key, or nothing exactly when there is no such row |
| GenericRepositories.WithoutKey | Infrastructure/Repositories/GenericRepository.cs:62-65 | After a remove and save, exactly the rows with other keys remain |
| GenericRepositories.SoftDeleted | Infrastructure/Repositories/GenericRepository.cs:67-75 | A soft delete keeps the row count; for a type without a flag it changes nothing |
| GenericRepositories.SoftDeleteHides | Infrastructure/Repositories/GenericRepository.cs:67-75 | The flagged row stays stored, but neither read returns anything with its key |
| GenericRepositories.SoftDeleteKeepsOthers | Infrastructure/Repositories/GenericRepository.cs:67-75 | Reads of other keys are unaffected by a soft delete |
| GenericRepositories.GetByIdAfterAdd | Infrastructure/Repositories/GenericRepository.cs:45-48 | After an add, an earlier visible row with the key still wins; else the new entity is found if it is visible and has the key |
| GenericRepositories.GetByIdAfterRemove | Infrastructure/Repositories/GenericRepository.cs:62-65 | After a remove, the removed key reads nothing and every other key reads as before |
| GenericRepositories.FirstVisibleAgree | Infrastructure/Repositories/GenericRepository.cs:34-42 | Two tables that agree on the visible rows with a key give the same read |
| GenericRepositories.Repository.Add | Infrastructure/Repositories/GenericRepository.cs:45-48 | The entity is appended and nothing else changes |
| GenericRepositories.Repository.Remove | Infrastructure/Repositories/GenericRepository.cs:62-65 | The rows with the entity's key are deleted for good and nothing else changes |
| GenericRepositories.Repository.SoftDelete | Infrastructure/Repositories/GenericRepository.cs:67-75 | With a flag, the entity's row now holds it marked deleted; without one, nothing happens |
| Data.FindProduct | Infrastructure/Data/Config/ProductConfiguration.cs:46 | A product read by key is a non-deleted row with that key, or nothing exactly when no such row exists |
| Data.CartWithItemsByCustomer | Infrastructure/Repositories/CartRepository.cs:18-25 | The customer's first non-deleted cart, loaded with its items, or nothing exactly when there is no such cart |
| Data.CartWithItemsById | Infrastructure/Repositories/CartRepository.cs:25-32 | The non-deleted cart with that key, loaded, or nothing exactly when there is none |
| Data.LoadedItemsOf | Infrastructure/Repositories/CartRepository.cs:22-23 | A cart's loaded items are exactly its rows whose product the query filter lets through, each with that product |
| Data.LoadedItemById | Infrastructure/Repositories/CartRepository.cs:138-143 | A cart item read with its product is a row with that key and a visible product, or nothing |
| Data.UserCustomer | Infrastructure/Repositories/UserRepository.cs:43-51 | The customer whose key is the user id, deleted or not |
| Data.CustomerById | Infrastructure/Repositories/GenericRepository.cs:34-42 | The non-deleted customer with that key |
| Data.AdminById | Infrastructure/Repositories/GenericRepository.cs:34-42 | The non-deleted admin with that key |
| Data.OrderIndexById | Infrastructure/Repositories/GenericRepository.cs:34-42 | The position of the non-deleted order with that key |
| Data.InsertAdded | Infrastructure/Repositories/UnitOfWork.cs:58-61 | A save inserts each cart the context added, in order, under the next keys from the counter, and leaves none pending |
| Data.SaveChanges | Infrastructure/Data/Config/CartItemConfiguration.cs:13-16 | The save goes through exactly when, after the added carts are inserted, every cart item row refers to a stored cart; it then commits that store |
| Data.SaveWithNothingAdded | Infrastructure/Repositories/UnitOfWork.cs:58-61 | With no cart added and the foreign keys holding, a save commits the store unchanged |
| Data.AppDbContext.Save | Infrastructure/Repositories/UnitOfWork.cs:58-61 | Reports whether the save went through; a refused save commits nothing, an accepted one commits the saved store |
| CartRepository.TouchStep | Infrastructure/Repositories/CartRepository.cs:71-75 | Reports whether the cart exists; only the carts table can change |
| CartRepository.AddItemToCart | Infrastructure/Repositories/CartRepository.cs:39-76 | The new store and result are exactly those of the add step |
| CartRepository.AddRepeatedProductMerges | Infrastructure/Repositories/CartRepository.cs:42-49 | A product already in the cart grows that row by the requested quantity and adds no row |
| CartRepository.AddNewProductSnapshotsPrice | Infrastructure/Repositories/CartRepository.cs:53-67 | A new product gets one new row, priced at its discount price when on sale with one, else at its list price |
| Entities.EffectivePrice | Infrastructure/Repositories/CartRepository.cs:63-65 | A product on sale with a discount price costs that price; any other costs its list price |
| CartRepository.AddUnknownProductChangesNothing | Infrastructure/Repositories/CartRepository.cs:53-54 | A missing product not yet in the cart is refused with no change |
| CartRepository.AddKeepsPairsUnique | Infrastructure/Repositories/CartRepository.cs:42-67 | An add never creates a second row for a (cart, product) pair, and the pair has a row afterwards when the product was found |
| CartRepository.UpdateCartItemQuantity | Infrastructure/Repositories/CartRepository.cs:78-98 | The new store and result are exactly those of the update step |
| CartRepository.UpdateSetsOrRemoves | Infrastructure/Repositories/CartRepository.cs:83-90 | A quantity ≤ 0 removes the row; any other quantity becomes the row's quantity exactly |
| CartRepository.RemoveCartItem | Infrastructure/Repositories/CartRepository.cs:100-113 | The new store and result are exactly those of the remove step |
| CartRepository.RemoveAt | Infrastructure/Repositories/CartRepository.cs:111 | Removing a row keeps the others in order |
| CartRepository.RemovedItemIsGone | Infrastructure/Repositories/CartRepository.cs:111 | With distinct keys, a removed item's key no longer occurs |
| CartRepository.ClearCart | Infrastructure/Repositories/CartRepository.cs:115-131 | The new store and result are exactly those of the clear step |
| CartRepository.ClearRemovesExactlyThatCart | Infrastructure/Repositories/CartRepository.cs:117-123 | No rows means false and no change; otherwise exactly that cart's rows go and other carts' rows stay |
| CartRepository.ClearKeepsCartKeys | Infrastructure/Repositories/CartRepository.cs:126-129 | Clearing changes no cart's key, owner or flag |
| CartRepository.ClearThenCountIsZero | Infrastructure/Repositories/CartRepository.cs:145-154 | After the customer's cart is cleared, its item count is zero |
| CartRepository.IncreaseCartItemQuantity | Infrastructure/Repositories/CartRepository.cs:167-189 | The new store and result are exactly those of the increase step |
| CartRepository.IncreaseRespectsStock | Infrastructure/Repositories/CartRepository.cs:177-181 | Stock ≤ quantity refuses with no change; otherwise exactly one is added, so the quantity stays within stock |
| CartRepository.DecreaseCartItemQuantity | Infrastructure/Repositories/CartRepository.cs:191-214 | The new store and result are exactly those of the decrease step |
| CartRepository.DecreaseRemovesOrSubtracts | Infrastructure/Repositories/CartRepository.cs:199-206 | At most one unit left removes the row (via remove); otherwise exactly one is subtracted |
| CartRepository.DecreaseKeepsQuantitiesPositive | Infrastructure/Repositories/CartRepository.cs:199-206 | A decrease never takes a row from one or more units to fewer than one |
| CartRepository.GetOrCreateCart | Infrastructure/Repositories/CartRepository.cs:216-237 | The new store and returned cart are exactly those of the get-or-create step |
| CartRepository.GetOrCreateExistingOrFresh | Infrastructure/Repositories/CartRepository.cs:216-237 | Returns the existing cart and changes nothing; otherwise adds one fresh empty cart under the unsaved key 0 to the context, where no query sees it, so a second call adds another |
| CartRepository.SavedNewCartIsFound | Infrastructure/Repositories/CartRepository.cs:224-236 | Once saved, the added cart is stored under the next key, the query then finds it with no items, and get-or-create then changes nothing |
| CartRepository.AddKeepsForeignKeys | Infrastructure/Repositories/CartRepository.cs:39-76 | An add to a stored cart keeps every cart item row tied to a stored cart |
| CartRepository.CartWritesKeepStore | Infrastructure/Repositories/CartRepository.cs:78-214 | Update, remove, clear, increase and decrease keep every key issued by the counter and every cart item row tied to a stored cart |
| CartRepository.CartItemCount | Infrastructure/Repositories/CartRepository.cs:145-154 | The summed quantities of the customer's loaded cart items; zero without a cart |
| CartRepository.IsProductInCart | Infrastructure/Repositories/CartRepository.cs:156-165 | True exactly when the customer's cart has a loaded item for the product |
| CartDtos.AppendItemTotals | Application/DTOs/Cart/CartDto.cs:13-14 | One more item adds its quantity and its unit price × quantity |
| CartDtos.ItemTotalPrice | Application/DTOs/Cart/CartItemDto.cs:11 | A line with no negative quantity or price totals at least zero, and a line of quantity zero totals zero |
| CartDtos.TotalPrice | Application/DTOs/Cart/CartDto.cs:13 | No items total zero, and items with no negative quantity or price total at least zero |
| CartDtos.TotalItems | Application/DTOs/Cart/CartDto.cs:14 | No items count zero, and items with no negative quantity count at least zero |
| CartDtos.ConcatTotals | Application/DTOs/Cart/CartDto.cs:13-14 | The totals of two item lists together are the sums of their totals |
| CartDtos.TotalsNonNegative | Application/DTOs/Cart/CartItemDto.cs:11 | With no negative quantities or prices neither total is negative |
| CartMapper.ToCartItemDto | Application/Map/CartMapper.cs:27-43 | A null item gives the default DTO; otherwise id, product id, quantity and snapshot price are copied, and name and image are "" without a product |
| CartMapper.ToCartDto | Application/Map/CartMapper.cs:10-25 | A null cart gives the default DTO; otherwise one item DTO per item in order, none when items were not loaded |
| CartMapper.LoadedCartDtoTotals | Application/Map/CartMapper.cs:10-25 | A loaded cart's DTO lists its items in order, and its totals are the summed quantities and summed snapshot line totals |
| CartMapper.UnloadedItemsTotalNothing | Application/Map/CartMapper.cs:23 | A cart without loaded items or with none maps to DTO totals of zero |
| CartServices.FindOwnedItem | Application/Services/CartService.cs:109-133 | The four guards looked up one at a time give the guard function's answer |
| CartServices.OwnedItemGuards | Application/Services/CartService.cs:109-133 | The item is accepted exactly when the customer, the cart and the item exist and the item lies in that cart; each refusal names the first failed guard |
| CartServices.GetCart | Application/Services/CartService.cs:23-57 | Returns the specified result and leaves the store as it was |
| CartServices.GetCartGuards | Application/Services/CartService.cs:27-45 | An empty user id or unknown customer fails; otherwise the customer's cart as loaded, or, without one, an empty cart DTO under the unsaved key 0 |
| CartServices.AddToCart | Application/Services/CartService.cs:57-104 | The new store and result are exactly those of the add outcome, with a refused save caught as AddFailed and nothing committed |
| CartServices.AddToCartChecksProductFirst | Application/Services/CartService.cs:62-79 | A missing product or too little stock fails before the customer is looked up; success exactly when the product is found, the stock suffices, the customer exists and already has a cart; failures change nothing |
| CartServices.AddToCartIgnoresQuantityInCart | Application/Services/CartService.cs:68 | Only the requested quantity is checked, so a repeated add merges past the stock |
| CartServices.ExistingCartAddSaves | Application/Services/CartService.cs:82-88 | An add to a customer's existing cart keeps the foreign keys, so its save goes through with the added store |
| CartServices.UpdateCartItemQuantity | Application/Services/CartService.cs:104-165 | The new store and result are exactly those of the update outcome |
| CartServices.UpdateChecksStockOnlyWhenGrowing | Application/Services/CartService.cs:136-143 | The stock check applies only to a growing quantity of a found product; otherwise the repository update is saved |
| CartServices.RemoveCartItem | Application/Services/CartService.cs:165-216 | The new store and result are exactly those of the remove outcome |
| CartServices.ForeignItemRefused | Application/Services/CartService.cs:130-133 | Update, remove, increase and decrease refuse an item of another cart and change nothing |
| CartServices.ClearCart | Application/Services/CartService.cs:216-247 | The new store and result are exactly those of the clear outcome |
| CartServices.ClearTwiceSucceeds | Application/Services/CartService.cs:229-240 | A known customer's clear succeeds with or without a cart or items, a second one too, and the item count is then zero |
| CartServices.IncreaseCartItemQuantity | Application/Services/CartService.cs:249-304 | The new store and result are exactly those of the increase outcome |
| CartServices.IncreaseFailsIffRepositoryRefuses | Application/Services/CartService.cs:281-285 | The stock failure is reported exactly when the repository refuses, and then nothing changes |
| CartServices.DecreaseCartItemQuantity | Application/Services/CartService.cs:304-355 | The new store and result are exactly those of the decrease outcome |
| CartServices.GetCartItemCount | Application/Services/CartService.cs:355-381 | Returns the specified count result |
| CartServices.IsProductInCartQuery | Application/Services/CartService.cs:381-406 | Returns the specified membership result |
| CartServices.QueriesDefaultWithoutCustomer | Application/Services/CartService.cs:359-369 | Without a user id or customer the count succeeds with 0 and the membership test with false |
| CartServices.CountIsSummedQuantity | Application/Services/CartService.cs:372-374 | For a known customer the count is the summed quantity of the loaded cart items |
| CartServices.FirstAddAsWrittenFails | Application/Services/CartService.cs:82-88 | As written, a customer's first add stores the item under the unsaved cart key, so the save is refused and nothing is stored |
| CartServices.UnsavedAddRefused | Application/Services/CartService.cs:82-88 | An item added under the unsaved key 0 to a store with no cart of that key makes the save refuse |
| CartServices.GetOrCreateSavedIsSave | Infrastructure/Repositories/CartRepository.cs:216-237 | The intended get-or-create is the repository's followed by the save's insertion of the added cart |
| CartServices.AddToCartCorrectedAgrees | Application/Services/CartService.cs:62-97 | The intended add agrees with the add as written for every request except a known customer's first add |
| CartServices.NewCartThenAdd | Infrastructure/Repositories/CartRepository.cs:216-237 | Get-or-create for a customer with no cart, then the add, gives the first-add store |
| CartServices.FirstAddFindsCart | Application/Services/CartService.cs:91 | After the first add as intended, the cart reload finds exactly the new cart and its one item |
| CartServices.FirstAddKeepsStoreValid | Application/Services/CartService.cs:82-88 | The first add as intended issues its two keys from the counter |
| CartServices.FirstAddKeepsForeignKeys | Application/Services/CartService.cs:82-88 | The first add as intended ties the item row to a stored cart |
| CartServices.FirstAddStoresItem | Application/Services/CartService.cs:82-97 | As intended, where the new cart is saved before its key is used, a first add succeeds and returns the new cart with exactly the one item at the product's effective price |
| OrderRepository.BuildLines | Infrastructure/Repositories/OrderRepository.cs:58-77 | The loop builds the order lines and the stock after decrementing |
| OrderRepository.CreateOrderFromCart | Infrastructure/Repositories/OrderRepository.cs:38-86 | The new store and result are exactly those of the create-order step |
| OrderRepository.CreateOrderNeedsCart | Infrastructure/Repositories/OrderRepository.cs:41-46 | An order is produced exactly when the cart exists and is not deleted; otherwise nothing changes |
| OrderRepository.CreateOrderAppendsOrder | Infrastructure/Repositories/OrderRepository.cs:49-55 | Exactly one new order is appended under a fresh key, and the carts are untouched |
| OrderRepository.NewOrderLines | Infrastructure/Repositories/OrderRepository.cs:58-73 | One line per cart item with the product id, name and quantity, the live effective price, and subtotal = price × quantity; the order is Pending and owned by the cart's customer |
| OrderRepository.NewOrderTotalIsSumOfSubtotals | Infrastructure/Repositories/OrderRepository.cs:52-54 | The order total equals the sum of its line subtotals |
| OrderRepository.CreateOrderTakesStock | Infrastructure/Repositories/OrderRepository.cs:76 | Each product's stock drops by exactly the quantity ordered, with no lower bound |
| OrderRepository.CreateOrderEmptiesCart | Infrastructure/Repositories/OrderRepository.cs:83 | The cart stays but loads no items, and other carts' rows stay |
| OrderRepository.WithoutLoaded | Infrastructure/Repositories/OrderRepository.cs:83 | Exactly the cart's loaded rows are removed |
| OrderRepository.CustomerOrderRows | Infrastructure/Repositories/OrderRepository.cs:17-26 | Exactly the customer's non-deleted orders, newest first, as a permutation of the filtered rows |
| OrderRepository.CustomerOrders | Infrastructure/Repositories/OrderRepository.cs:19-22 | Each of those orders loaded with its customer and lines |
| OrderRepository.LoadedLines | Infrastructure/Repositories/OrderRepository.cs:33-34 | Exactly the order lines whose product the query filter lets through |
| OrderRepository.OrderWithItems | Infrastructure/Repositories/OrderRepository.cs:28-36 | The non-deleted order with that key, exactly when there is one, with its customer and visible lines |
| OrderMapper.CustomerName | Application/Map/OrderMapper.cs:13 | The customer's full name, or "Unknown Customer" when the customer or its user is missing |
| OrderMapper.ToOrderItemDto | Application/Map/OrderMapper.cs:25-38 | All eight snapshot fields are copied |
| OrderMapper.ToOrderDto | Application/Map/OrderMapper.cs:9-20 | Date, status, total and notes are copied; one item DTO per line in order; none when lines were not loaded |
| OrderMapper.ToOrderDtoList | Application/Map/OrderMapper.cs:22-25 | One DTO per order, in order |
| OrderMapper.DtoLinesTotal | Application/Map/OrderMapper.cs:18 | The DTO lines total what the order's lines total |
| OrderServices.ValidateCartAndCustomer | Application/Services/OrderService.cs:53-70 | A failure carries exactly one message |
| OrderServices.CreateOrder | Application/Services/OrderService.cs:28-51 | The new store and result are exactly those of the create-order outcome |
| OrderServices.CreateOrderGuards | Application/Services/OrderService.cs:32-34 | Customer, cart, ownership and emptiness are checked in that order, the first failure is reported with no change, and creation succeeds exactly when validation does |
| OrderServices.CreateOrderPlacesOrder | Application/Services/OrderService.cs:36-44 | A valid request appends one Pending order of the user with the requested notes and one line per cart item, and its DTO totals its lines |
| OrderServices.CreateOrderTakesStockAndEmptiesCart | Application/Services/OrderService.cs:36-42 | A created order takes its quantities from stock and leaves the cart empty |
| OrderServices.VerifyOrderAccess | Application/Services/OrderService.cs:179-193 | A failure carries exactly one message |
| OrderServices.OrderAccessRule | Application/Services/OrderService.cs:72-91 | A missing order fails; otherwise reading succeeds exactly for the order's customer or an admin, with the order's status, total, customer name and visible lines |
| OrderServices.GetOrderByIdResult | Application/Services/OrderService.cs:72-91 | Succeeds exactly when the access check does, then with data; a failure carries exactly one message |
| OrderServices.GetUserOrdersResult | Application/Services/OrderService.cs:93-106 | Always succeeds, with one DTO per non-deleted order of the user |
| OrderServices.UserOrdersNewestFirst | Application/Services/OrderService.cs:93-106 | The user's non-deleted orders as DTOs, newest first |
| OrderServices.ValidateAdminAndOrder | Application/Services/OrderService.cs:133-144 | A failure carries exactly one message; a success carries an existing order |
| OrderServices.UpdateOrderStatus | Application/Services/OrderService.cs:108-131 | The new store and result are exactly those of the status-update outcome |
| OrderServices.UpdateStatusGuards | Application/Services/OrderService.cs:133-143 | A non-admin is refused, then a missing order; neither changes anything |
| OrderServices.UpdateStatusSetsOnlyStatus | Application/Services/OrderService.cs:116-124 | Any status is set on the order and nothing else changes; the reloaded DTO shows it |
| OrderServices.ListedOrders | Application/Services/OrderService.cs:150-153 | Every order, or exactly those of the requested status |
| OrderServices.GetOrdersResult | Application/Services/OrderService.cs:146-175 | Succeeds exactly when page ≥ 1 and pageSize ≥ 1, with a page whose total count is the number of listed orders, whose index is page-1 and whose size is the one requested; any other page fails with the catch's one message |
| OrderServices.OrdersPageFigures | Application/Services/OrderService.cs:155-168 | For page ≥ 1 and pageSize ≥ 1: the total count is the whole filtered set, the page index is page-1, at most pageSize items, each of the requested status |
| OrderServices.OrdersPageIsSlice | Application/Services/OrderService.cs:157-160 | For page ≥ 1 and pageSize ≥ 1: the page is the slice of the filtered orders, newest first, after skipping (page-1)·pageSize, and empty past the end |
| PaymentServices.TruncateTowardZero | Application/Services/PaymentService.cs:44 | The decimal-to-long cast drops the fraction toward zero |
| PaymentServices.ToCents | Application/Services/PaymentService.cs:44 | The amount × 100 truncated, when it fits a long; nothing otherwise |
| PaymentServices.CentsOfAmount | Application/Services/PaymentService.cs:44 | Whole cents convert exactly, and the conversion loses less than one cent |
| PaymentServices.CartTotal | Application/Services/PaymentService.cs:39 | The amount charged is the cart DTO's total price |
| PaymentServices.CreatePaymentIntent | Application/Services/PaymentService.cs:22-72 | The new store and result are exactly those of the create-intent outcome |
| PaymentServices.CreateIntentGuards | Application/Services/PaymentService.cs:27-36 | No cart or an empty cart fails; every failure carries one message and records nothing |
| PaymentServices.CreateIntentRecordsPending | Application/Services/PaymentService.cs:39-66 | On success the processor got the snapshot total in cents, one pending payment of that total is recorded under the new intent id, and the response returns the total |
| PaymentServices.CreateIntentKeepsCart | Application/Services/PaymentService.cs:52-60 | Creating an intent leaves the customer's cart as it was |
| PaymentServices.PaidLine | Application/Services/PaymentService.cs:114-124 | A paid line copies product, name, SKU, snapshot price and quantity, with subtotal = quantity × snapshot price |
| PaymentServices.PaidLines | Application/Services/PaymentService.cs:112-125 | One paid line per cart item, in order |
| PaymentServices.BuildPaidLines | Application/Services/PaymentService.cs:112-125 | The loop builds exactly the paid lines |
| PaymentServices.ConfirmPaymentAndCreateOrder | Application/Services/PaymentService.cs:74-140 | The new store and result are exactly those of the confirm outcome |
| PaymentServices.AddPaidOrder | Application/Services/PaymentService.cs:105-134 | From the store with the payment marked, appends the paid order, clears the cart and returns the order key |
| PaymentServices.ConfirmGuards | Application/Services/PaymentService.cs:79-102 | An unknown intent, a status other than "succeeded", or a missing or empty cart fails with no change; success exactly when all pass |
| PaymentServices.ConfirmCreatesPaidOrder | Application/Services/PaymentService.cs:94-110 | The payment is marked succeeded and one paid order is appended under a fresh key, which is returned |
| PaymentServices.PaidOrderFields | Application/Services/PaymentService.cs:105-125 | The order is Processing, linked to the payment, totals the payment's amount, and has one snapshot-priced line per cart item |
| PaymentServices.ConfirmClearsCartKeepsStock | Application/Services/PaymentService.cs:127-132 | Confirming clears the customer's cart and leaves every product row, stock included, unchanged |
| PaymentServices.PaidLinesTotal | Application/Services/PaymentService.cs:39 | The paid lines total the cart's snapshot total |
| PaymentServices.IntentThenConfirmTotalsAgree | Application/Services/PaymentService.cs:39-125 | After a successful intent, confirming succeeds and the recorded amount equals the sum of the paid order's lines |
| ProductRepository.NewestFirst | Infrastructure/Repositories/ProductRepository.cs:20-23 | Exactly the filtered rows meeting the criterion, newest first, as a permutation |
| ProductRepository.ProductsByCategory | Infrastructure/Repositories/ProductRepository.cs:18-24 | Exactly the active, non-deleted products of the category, newest first |
| ProductRepository.FeaturedProducts | Infrastructure/Repositories/ProductRepository.cs:26-32 | Exactly the active, non-deleted featured products, newest first |
| ProductRepository.ProductsOnSale | Infrastructure/Repositories/ProductRepository.cs:34-40 | Exactly the active, non-deleted products on sale with a discount price, newest first |
| ProductRepository.ProductsByBrand | Infrastructure/Repositories/ProductRepository.cs:42-48 | Exactly the active, non-deleted products of the brand, newest first |
| ProductRepository.SearchProducts | Infrastructure/Repositories/ProductRepository.cs:50-65 | A term that is empty or only .NET white space (ASCII, Latin-1 and the Unicode space separators) finds nothing; otherwise exactly the active products whose lower-cased name, description, brand or tags contain the lower-cased term, newest first |
| ProductRepository.SearchIgnoresCase | Infrastructure/Repositories/ProductRepository.cs:55 | Lower-casing the term first gives the same hits |
| ProductRepository.ProductIndexById | Infrastructure/Repositories/ProductRepository.cs:69 | The position of a non-deleted product with the key |
| ProductRepository.FindProductAt | Infrastructure/Repositories/ProductRepository.cs:69 | The lookup by position and the lookup by value agree |
| ProductRepository.UpdateStockQuantity | Infrastructure/Repositories/ProductRepository.cs:67-76 | The new store and result are exactly those of the stock-update step |
| ProductRepository.UpdateStockReports | Infrastructure/Repositories/ProductRepository.cs:69-72 | Reports true exactly when the product is found; false changes nothing; no other table changes |
| ProductRepository.UpdateStockSetsExactly | Infrastructure/Repositories/ProductRepository.cs:74 | The product's stock becomes exactly the given value, with no sign check; its other fields and every other product stay as they were |
| ProductMapper.ReplaceAllKeepsClean | Application/Map/ProductMapper.cs:129-139 | Replacements whose texts avoid every pattern leave a clean string clean of all patterns |
| ProductMapper.ReplaceAllOfClean | Application/Map/ProductMapper.cs:129-139 | A string holding none of the patterns is unchanged by the replacements |
| ProductMapper.SlugPatterns | Application/Map/ProductMapper.cs:130-139 | The replaced characters are the space, &, ', ", ?, !, :, ;, / and \ |
| ProductMapper.SlugReplacementsClean | Application/Map/ProductMapper.cs:130-139 | No replacement text contains a replaced character or an upper-case letter |
| ProductMapper.GenerateSlug | Application/Map/ProductMapper.cs:126-140 | A slug has no upper-case ASCII letter and none of the replaced characters |
| ProductMapper.SlugIsIdempotent | Application/Map/ProductMapper.cs:126-140 | Slugging a slug returns it unchanged |
| ProductMapper.ProductToDto | Application/Map/ProductMapper.cs:19-42 | Key, name, slug, SKU, prices, sale flag, stock, flags and creation date are copied |
| ProductMapper.ToProductDto | Application/Map/ProductMapper.cs:16-43 | A null product maps to null; otherwise to its DTO |
| ProductMapper.ToProductDtoList | Application/Map/ProductMapper.cs:113-119 | A null list maps to an empty one; otherwise one DTO per product, in order |
| ProductMapper.ToEntity | Application/Map/ProductMapper.cs:50-74 | A null DTO maps to null; otherwise an active, non-featured, non-deleted product with the DTO's fields, the given image paths, the name's slug and the current time |
| ProductMapper.UpdateEntity | Application/Map/ProductMapper.cs:82-106 | A null product or DTO changes nothing; otherwise the product becomes its updated form |
| ProductMapper.UpdateKeepsUnmappedFields | Application/Map/ProductMapper.cs:87-105 | Key, active and featured flags, SKU, creation date, deletion flag and ratings are kept; an image is replaced only by a non-empty path |
| ProductMapper.UpdateIsIdempotent | Application/Map/ProductMapper.cs:87-105 | Applying the same update twice is the same as once |
| Text.ToLower | Infrastructure/Repositories/ProductRepository.cs:55 | Lower-casing keeps the length, maps each character, and leaves no upper-case ASCII letter |
| Text.ToLowerIdempotent | Infrastructure/Data/DataSeed/FashionHubDataSeed.cs:307 | Lower-casing twice is lower-casing once |
| Text.ReplaceCharMembers | Application/Map/ProductMapper.cs:130 | After replacing a character, every character is either an old one other than it or one of the replacement's |
| Text.IdeographicSpaceIsBlank | Infrastructure/Repositories/ProductRepository.cs:52 | The ideographic space and an em space count as white space, so a term of them alone is blank; a letter or a zero-width space does not |
| DataSeed.KnownGenderNames | Infrastructure/Data/DataSeed/FashionHubDataSeed.cs:309-313 | "female" is Women, "male" is Men, "unisex" is Unisex, "kids" is Kids and "baby" is Baby |
| DataSeed.MapGenderValue | Infrastructure/Data/DataSeed/FashionHubDataSeed.cs:305-315 | Women exactly for "female", Men exactly for "male", Kids exactly for "kids" and Baby exactly for "baby", in any ASCII case |
| DataSeed.MapGenderIgnoresCase | Infrastructure/Data/DataSeed/FashionHubDataSeed.cs:307 | A string maps as its lower-cased form does |
| DataSeed.UnknownGenderIsUnisex | Infrastructure/Data/DataSeed/FashionHubDataSeed.cs:314 | Every string whose lower-cased form is not a women's, men's, kids' or baby name maps to Unisex |

## Left out

- I/O, logging and the HTTP layer are not modelled. The clock is a `Timestamp` parameter.
- The payment processor is not modelled. Its calls are replaced: a function gives the intent id and client secret (or an error message) for an amount in cents, and a lookup value gives the intent's status.
- Exceptions caught by the services' `catch` blocks are modelled in two places. On the payment path: a processor error, an amount too large for a long, and a duplicate intent id refused by the unique index, each failing with the message prefix and recording nothing. In the order listing: a page SQL Server cannot serve (page < 1 gives a negative OFFSET, pageSize < 1 a FETCH of fewer than one row), caught as "An error occurred while retrieving the orders." The other services' catch-all failures are not modelled. Their texts come from the runtime, so the model uses fixed stand-in texts for them.
- Concurrency is not modelled. Each request is one atomic step on the store.
- Only one way a save can fail is modelled: a cart item row that refers to no stored cart. This is how the as-written first add in `AddToCartAsync` fails. Other database errors on save are not modelled.
- Carts are the only entity the model holds as added but unsaved until the save. Every other insert is keyed and stored at once, which agrees with the source, because each of those requests saves before it reads the new key.
- OrderService.cs:55, 135 and 187 pass the string user id to `GetByIdAsync`, whose interface takes an `int` (Domain/Repositories.Interfaces/IGenericRepository.cs:9). As shown, those calls do not type-check. The model reads each one as a lookup by the user-id key that skips soft-deleted rows (`CustomerById`, `AdminById`).
- `ValidState` (every key issued by the counter, no cart pending) and `ForeignKeysHold` (every cart item tied to a stored cart) are assumed of the store at the start of a request. The model proves that the cart writes and the adds to an existing cart keep both (`CartRepository.CartWritesKeepStore`, `CartServices.ExistingCartAddSaves`), and that the intended first add does too. It does not prove this for order creation, status updates or payments. Likewise, at most one row per (cart, product) pair (`UniquePairs`) and positive item quantities (`PositiveQuantities`) are assumed at the start of a request, and are proved kept only by the add and the decrease.
- Null strings are modelled as "". The product, customer and user navigations are `Option`s.
- The order DTO returned by a freshly created order names "Unknown Customer". The model does not include the change tracker filling in the customer navigation.
- Rounding of `decimal(18,2)` columns on save is not modelled. Money is an exact `real`.
- 32-bit wrap-around of quantities and stock is not modelled. Integers are unbounded.
- String equality inside database queries (the brand filter and the payment lookup by intent id) is modelled as exact. The database collation, case-insensitive by default on SQL Server, is not modelled.
- Paging.NewPagedResult requires `pageSize > 0`. The double division of a zero or negative page size is not modelled.
- `GetAllQueryable` is not part of this model. It is assumed to apply no filter, so `GetOrdersAsync` pages soft-deleted orders too.
- Selected size and colour are not modelled: `CartItem` has no such fields. Paid order lines get "" for them.
- Product.cs and CreateProductDto.cs are not part of this model. A new product is assumed not to be featured, not to be deleted, to have no ratings and to have an empty SKU. A new payment's status "pending" and its date, the clock at creation, follow Domain/Entities/Payment.cs:11-13.
- Text.ToLower: lower-cases ASCII letters only. Culture-specific case mapping is not modelled.
- ProductMapper.UpdateEntity: updates a class holding the product record as one field. Aliasing of a product tracked elsewhere is not modelled.
- The image upload (`IFormFile`) and the saving of image files are not part of this model. The mapper receives the paths.
- PaymentServices.ConfirmPaymentAndCreateOrder: like the source, it does not check that the payment belongs to the customer or that it was still pending. A second confirmation with a refilled cart creates a second order for the same payment.
- The `Payments` member of the unit of work is assumed to exist, even though the interface does not show it. Payments are keyed by intent id.
- OrderStatus values other than `Pending` and `Processing` are carried as numbers, because the enumeration's definition is not part of this model.

## Findings

| source | as written | input that shows it | evidently intended | confidence | as-written member | corrected member |
|---|---|---|---|---|---|---|
| Application/Services/CartService.cs:82-88 | Get-or-create only adds a new cart without saving it. The item is then added under the unsaved cart's default key 0. The save inserts the cart under a fresh key and the item under key 0, which no cart has, so the foreign key refuses the save and the catch returns "Failed to add item to cart." | A known customer with no cart adds an existing product with enough stock (any quantity) | A customer's first add stores the new cart and one item row under that cart's key, and returns the cart with that item | not executed | CartServices.FirstAddAsWrittenFails | CartServices.FirstAddStoresItem |
