# Smart grocery inventory: a verified model of its rules

The system is a Spring Boot back end for a grocery's stock. It stores
**products**, **categories** and **suppliers**, and answers questions about
them: which products are low on stock, which expire soon, which have
expired, and how much the stock is worth. This project models its rule set
in Dafny and proves what those rules promise.

- `Model` (model.dfy): the product, category and supplier entities. It also
  holds the three business predicates of a product (low stock, expiring soon,
  expired) and the column constraints of a product.
- `Dto` (dto.dfy): the product create/update payload and the product
  response view.
- `Repository` (repository.dfy): the product repository's queries as pure
  functions over a table of products keyed by id. These are the unique-key
  lookups, the low-stock, expiring and expired filters, the per-category and
  per-supplier counts, the name searches and the total-value sum. The module
  also has the category and supplier lookups the services use.
- `Services` (services.dfy): the class `Inventory`, one store of the three
  tables with an identity counter for each. Its methods are the product,
  category and supplier services.
  - Every write either fails with the error the service throws and leaves the
    store as it was, because the transaction rolls back, or makes exactly the
    change its contract states.
  - Every write preserves `Valid()`:
    - SKUs and barcodes are unique;
    - category names are unique;
    - emails are unique among the suppliers that have one;
    - no stored id is at or beyond its counter.
  - The read operations are functions of the store.
- `Scenarios` (scenarios.dfy): the cases of the product service's unit tests,
  replayed against the store's contracts.

Conventions:
- A date is a day number. "Today" is a parameter wherever the source reads
  the clock, and one call uses the same day throughout. The source reads the
  clock again in each flag of each view, so a list built across midnight can
  show an expired product in the expiring list; the model does not capture
  that, and the expiring list's "none of them expired" rests on the single day.
- Money is an integer number of cents.
- A Java `Integer` is `Int32`.
- A null reference or an empty Optional is `None`.
- An `IllegalArgumentException` is a `ServiceError`.

The source disagrees with its own flags in one place, and the model keeps
that disagreement as written:
- The expiring-products query includes both ends of its window.
- The "expiring soon" flag of a view excludes the far end.
- So a product that expires exactly seven days from today appears in the
  seven-day list, yet its view says it is not expiring soon. This is proved
  as `Services.ExpiringListIncludesUnflaggedProduct`.

## Model

| member | source | states |
|---|---|---|
| Model.IsLowStock | src/main/java/com/picnic/inventory/model/Product.java:101-103 | stock at or below the reorder threshold |
| Model.IsExpiringSoon | src/main/java/com/picnic/inventory/model/Product.java:105-108 | a product with a date strictly before today plus the threshold; never one without a date |
| Model.IsExpired | src/main/java/com/picnic/inventory/model/Product.java:110-113 | a product with a date strictly before today; never one without a date |
| Model.Utf16Length | src/main/java/com/picnic/inventory/model/Product.java:18 | the length `String.length()` gives: at least one and at most two code units per character |
| Model.Utf16LengthOfBmp | src/main/java/com/picnic/inventory/model/Product.java:26 | a string of Basic Multilingual Plane characters has one code unit per character; one emoji counts two and two emoji four |
| Model.ValidProduct | src/main/java/com/picnic/inventory/model/Product.java:17-58 | the column constraints, lengths counted in UTF-16 code units as Java counts them: name, SKU and barcode not blank and within their lengths, description and storage location within theirs, price from 0.01 with at most 8 integer digits, stock and threshold non-negative |
| Dto.ValidCreateDto | src/main/java/com/picnic/inventory/dto/ProductCreateDTO.java:9-33 | the payload's constraints, lengths counted in UTF-16 code units: name, SKU and barcode not blank and within their lengths, price at least 0.01, stock and threshold non-negative |
| Model.LowStockAtThreshold | src/main/java/com/picnic/inventory/model/Product.java:101-103 | stock equal to the threshold is low stock; one unit more is not |
| Model.NoDateNeverFlagged | src/main/java/com/picnic/inventory/model/Product.java:105-113 | a product without an expiration date is neither expired nor expiring soon, for every threshold |
| Model.ExpiresTodayNotExpired | src/main/java/com/picnic/inventory/model/Product.java:110-113 | expiry is strict: a product expiring today is not expired, and tomorrow it is |
| Model.ExpiringSoonFarEndExclusive | src/main/java/com/picnic/inventory/model/Product.java:105-108 | a date exactly n days ahead is not expiring soon with threshold n; one day earlier, or threshold n+1, is |
| Model.ExpiringSoonIsExpiredLater | src/main/java/com/picnic/inventory/model/Product.java:105-113 | expiring soon with threshold n today is exactly being expired n days from now |
| Model.ExpiredImpliesExpiringSoon | src/main/java/com/picnic/inventory/model/Product.java:105-113 | for a non-negative threshold, an expired product is also expiring soon |
| Model.StockChangeValidity | src/main/java/com/picnic/inventory/model/Product.java:17-58 | on a product within its column constraints, changing only the stock keeps it valid exactly when the new stock is non-negative |
| Repository.FindBySku | src/main/java/com/picnic/inventory/repository/ProductRepository.java:17 | with unique SKUs: a product is found exactly when the SKU is in use; it has that SKU, and it is the only one |
| Repository.FindByBarcode | src/main/java/com/picnic/inventory/repository/ProductRepository.java:20 | with unique barcodes: a product is found exactly when the barcode is in use; it has that barcode, and it is the only one |
| Repository.InsertKeepsKeysUnique | src/main/java/com/picnic/inventory/model/Product.java:25-32 | adding a product whose SKU and barcode are both unused keeps both columns unique |
| Repository.ReplaceKeepsKeysUnique | src/main/java/com/picnic/inventory/model/Product.java:25-32 | replacing a product keeps both columns unique when each new key is its old one or unused |
| Repository.FindLowStockProducts | src/main/java/com/picnic/inventory/repository/ProductRepository.java:32-33 | exactly the products that are low on stock, rows unchanged |
| Repository.FindProductsExpiringWithinDays | src/main/java/com/picnic/inventory/repository/ProductRepository.java:36-37 | exactly the products with a date from today through the future date, both included; none when the future date is before today |
| Repository.FindExpiredProducts | src/main/java/com/picnic/inventory/repository/ProductRepository.java:40-41 | exactly the expired products |
| Repository.WindowVersusExpiringSoon | src/main/java/com/picnic/inventory/repository/ProductRepository.java:36-37 | for n >= 0, a product is in the n-day window exactly when it is expiring soon and not expired, or expires exactly n days ahead |
| Repository.FindByCategoryId | src/main/java/com/picnic/inventory/repository/ProductRepository.java:23 | exactly the products referencing that category |
| Repository.FindBySupplierId | src/main/java/com/picnic/inventory/repository/ProductRepository.java:26 | exactly the products referencing that supplier |
| Repository.UpperIdempotent | src/main/java/com/picnic/inventory/repository/ProductRepository.java:29 | upper-casing twice is upper-casing once |
| Repository.SearchIgnoresCase | src/main/java/com/picnic/inventory/repository/ProductRepository.java:29 | the empty term matches every name; upper-casing the term changes no match; every name matches itself |
| Repository.FindProductsByNameContainingIgnoreCase | src/main/java/com/picnic/inventory/repository/ProductRepository.java:29 | exactly the products whose name contains the term, ignoring case |
| Repository.CountProductsByCategory | src/main/java/com/picnic/inventory/repository/ProductRepository.java:50-51 | the count is the number of products referencing that category |
| Repository.CountProductsBySupplier | src/main/java/com/picnic/inventory/repository/ProductRepository.java:54-55 | the count is the number of products referencing that supplier |
| Repository.CountByCategoryInsert | src/main/java/com/picnic/inventory/repository/ProductRepository.java:50-51 | adding a product raises its own category's count by one and leaves every other count unchanged |
| Repository.CountByCategoryRemove | src/main/java/com/picnic/inventory/repository/ProductRepository.java:50-51 | removing a product lowers its own category's count by one and leaves every other count unchanged |
| Repository.CountBySupplierInsert | src/main/java/com/picnic/inventory/repository/ProductRepository.java:54-55 | adding a product raises its own supplier's count by one and leaves every other count unchanged |
| Repository.CountBySupplierRemove | src/main/java/com/picnic/inventory/repository/ProductRepository.java:54-55 | removing a product lowers its own supplier's count by one and leaves every other count unchanged |
| Repository.InventorySum | src/main/java/com/picnic/inventory/repository/ProductRepository.java:58-59 | price times stock summed over every product, each taken once, in increasing id order |
| Repository.TotalInventoryValue | src/main/java/com/picnic/inventory/repository/ProductRepository.java:58-59 | the sum is absent exactly for an empty table, and otherwise is the sum of price times stock |
| Repository.InventorySumRemove | src/main/java/com/picnic/inventory/repository/ProductRepository.java:58-59 | the sum does not depend on the order of the fold: any product can be taken out first |
| Repository.InventorySumInsert | src/main/java/com/picnic/inventory/repository/ProductRepository.java:58-59 | adding a product adds its value to the sum |
| Repository.InventorySumReplace | src/main/java/com/picnic/inventory/repository/ProductRepository.java:58-59 | replacing a product swaps its old value for its new one |
| Repository.InventorySumNonNegative | src/main/java/com/picnic/inventory/repository/ProductRepository.java:58-59 | with no negative price or stock, the sum is not negative |
| Repository.TotalValueOfTwoProducts | src/main/java/com/picnic/inventory/repository/ProductRepository.java:58-59 | 50 units at 4.99 and 10 at 9.99 are worth 349.40; an empty table gives no sum, reported as 0 |
| Repository.ReportedValue | src/main/java/com/picnic/inventory/controller/ProductController.java:173-175 | an absent sum is reported as 0, a present one as itself |
| Repository.FindCategoryByName | src/main/java/com/picnic/inventory/repository/CategoryRepository.java:14 | with unique names: a category is found exactly when the name is in use, and it has that name |
| Repository.FindCategoriesByNameContainingIgnoreCase | src/main/java/com/picnic/inventory/repository/CategoryRepository.java:17 | exactly the categories whose name contains the term, ignoring case |
| Repository.FindSupplierByName | src/main/java/com/picnic/inventory/repository/SupplierRepository.java:14 | no result exactly when no supplier has the name; a result is the only supplier with it; a failure only when two suppliers share it |
| Repository.FindSuppliersByNameContainingIgnoreCase | src/main/java/com/picnic/inventory/repository/SupplierRepository.java:20 | exactly the suppliers whose name contains the term, ignoring case |
| Services.CreatedProduct | src/main/java/com/picnic/inventory/service/ProductService.java:68-92 | a new product with the ten scalar fields of the payload and the references it names |
| Services.UpdatedProduct | src/main/java/com/picnic/inventory/service/ProductService.java:116-140 | the product with the ten scalar fields of the payload, and each reference replaced only when the payload names one |
| Services.CreatedProductCarriesPayload | src/main/java/com/picnic/inventory/service/ProductService.java:68-92 | a created product carries every payload field and both references, absent ones unset; a validated payload gives non-negative stock levels |
| Services.UpdateIsFullReplace | src/main/java/com/picnic/inventory/service/ProductService.java:116-140 | an update equals creating from the same payload, except that a reference with an absent id is kept; the old scalar fields do not matter, and repeating the update changes nothing |
| Services.ToView | src/main/java/com/picnic/inventory/service/ProductService.java:198-230 | the view copies id and every scalar field; it names a category or supplier exactly when the product references a stored one, and then names that one; its flags are low stock, expired and expiring soon with threshold 7 |
| Services.ViewOfCreatedProduct | src/main/java/com/picnic/inventory/service/ProductService.java:198-230 | the view of a created product gives its payload back; it names a category and a supplier exactly when their ids were given, and then names the stored ones |
| Services.ViewFlagsConsistent | src/main/java/com/picnic/inventory/service/ProductService.java:224-227 | an expired product's view is also flagged expiring soon; one without a date is flagged neither |
| Services.ExpiringListIncludesUnflaggedProduct | src/main/java/com/picnic/inventory/service/ProductService.java:160-166 | a product expiring exactly seven days ahead is in the seven-day list, yet its view is not flagged expiring soon |
| Services.CreateProductError | src/main/java/com/picnic/inventory/service/ProductService.java:58-92 | a create fails on a used SKU first, then a used barcode, then an unknown category id, then an unknown supplier id; otherwise it passes |
| Services.UpdateProductError | src/main/java/com/picnic/inventory/service/ProductService.java:98-140 | as for create, in the same order: a SKU or barcode is checked only when it changes, and then an unknown category id, then an unknown supplier id fails; keeping both keys leaves only the reference checks |
| Services.Inventory.constructor | src/main/java/com/picnic/inventory/service/ProductService.java:29-35 | an empty store with every counter at 1, valid and with no negative stock |
| Services.Inventory.GetAllProducts | src/main/java/com/picnic/inventory/service/ProductService.java:37-41 | a view of every stored product and nothing else |
| Services.Inventory.GetProductById | src/main/java/com/picnic/inventory/service/ProductService.java:43-46 | a view exactly when the id is stored; absence is not an error |
| Services.Inventory.GetProductBySku | src/main/java/com/picnic/inventory/service/ProductService.java:48-51 | a view exactly when the SKU is in use, of the product with that SKU |
| Services.Inventory.GetProductByBarcode | src/main/java/com/picnic/inventory/service/ProductService.java:53-56 | a view exactly when the barcode is in use, of the product with that barcode |
| Services.Inventory.GetLowStockProducts | src/main/java/com/picnic/inventory/service/ProductService.java:154-158 | views of exactly the low-stock products, each flagged low stock |
| Services.Inventory.GetProductsExpiringWithinDays | src/main/java/com/picnic/inventory/service/ProductService.java:160-166 | views of exactly the products expiring from today through `days` ahead, none of them expired; none for negative `days` |
| Services.Inventory.GetExpiredProducts | src/main/java/com/picnic/inventory/service/ProductService.java:168-172 | views of exactly the expired products, each flagged expired and expiring soon |
| Services.Inventory.SearchProductsByName | src/main/java/com/picnic/inventory/service/ProductService.java:174-178 | views of exactly the products whose name contains the term, ignoring case |
| Services.Inventory.GetTotalInventoryValue | src/main/java/com/picnic/inventory/service/ProductService.java:193-195 | absent exactly when the store has no product, otherwise the sum of price times stock |
| Services.Inventory.SaveNewProduct | src/main/java/com/picnic/inventory/service/ProductService.java:94 | saving a new product gives it the next id, adds exactly it, keeps the unique columns unique and adds its value to the total |
| Services.Inventory.SaveProduct | src/main/java/com/picnic/inventory/service/ProductService.java:142 | saving a stored product replaces exactly its row, keeps the unique columns unique and swaps its value in the total |
| Services.Inventory.CreateProduct | src/main/java/com/picnic/inventory/service/ProductService.java:58-96 | fails exactly as its checks say, in their order, and then changes nothing; on success adds exactly one product under a fresh id, returns its view and adds its value to the total |
| Services.Inventory.UpdateProduct | src/main/java/com/picnic/inventory/service/ProductService.java:98-144 | an unknown id fails first; then the checks of an update, with no change on failure; on success replaces exactly that product with its updated form |
| Services.Inventory.UpdateStock | src/main/java/com/picnic/inventory/service/ProductService.java:180-191 | an unknown id fails before a negative quantity; failures change nothing; on success only that product's stock changes, and the total changes by its value difference |
| Services.Inventory.DeleteProduct | src/main/java/com/picnic/inventory/service/ProductService.java:146-151 | an unknown id fails and deletes nothing; otherwise exactly that product is removed and its value leaves the total |
| Services.Inventory.GetAllCategories | src/main/java/com/picnic/inventory/service/CategoryService.java:23-25 | every stored category and nothing else |
| Services.Inventory.GetCategoryById | src/main/java/com/picnic/inventory/service/CategoryService.java:27-29 | the category exactly when the id is stored |
| Services.Inventory.GetCategoryByName | src/main/java/com/picnic/inventory/service/CategoryService.java:31-33 | the category with that name exactly when one exists |
| Services.Inventory.SearchCategoriesByName | src/main/java/com/picnic/inventory/service/CategoryService.java:65-67 | exactly the categories whose name contains the term, ignoring case |
| Services.Inventory.CreateCategory | src/main/java/com/picnic/inventory/service/CategoryService.java:35-42 | a name in use fails and changes nothing; otherwise adds exactly one category under a fresh id, keeping names unique |
| Services.Inventory.UpdateCategory | src/main/java/com/picnic/inventory/service/CategoryService.java:44-56 | an unknown id fails; renaming to a name held by another category fails; keeping the name always passes; on success only that category's name and description change |
| Services.Inventory.DeleteCategory | src/main/java/com/picnic/inventory/service/CategoryService.java:58-63 | an unknown id fails and deletes nothing; otherwise exactly that category is removed |
| Services.Inventory.GetAllSuppliers | src/main/java/com/picnic/inventory/service/SupplierService.java:23-25 | every stored supplier and nothing else |
| Services.Inventory.GetSupplierById | src/main/java/com/picnic/inventory/service/SupplierService.java:27-29 | the supplier exactly when the id is stored |
| Services.Inventory.GetSupplierByName | src/main/java/com/picnic/inventory/service/SupplierService.java:31-33 | nothing exactly when no supplier has the name; the only supplier with it; a failure only when several share it |
| Services.Inventory.SearchSuppliersByName | src/main/java/com/picnic/inventory/service/SupplierService.java:68-70 | exactly the suppliers whose name contains the term, ignoring case |
| Services.Inventory.CreateSupplier | src/main/java/com/picnic/inventory/service/SupplierService.java:35-42 | a given email already in use fails and changes nothing; no email always passes; on success adds one supplier with no contact person, keeping emails unique |
| Services.Inventory.UpdateSupplier | src/main/java/com/picnic/inventory/service/SupplierService.java:44-59 | an unknown id fails; a given, changed email held by another supplier fails; an unchanged or absent email passes; on success all five contact fields are overwritten, the email with none when none is given |
| Services.Inventory.DeleteSupplier | src/main/java/com/picnic/inventory/service/SupplierService.java:61-66 | an unknown id fails and deletes nothing; otherwise exactly that supplier is removed |
| Scenarios.SetUp | src/test/java/com/picnic/inventory/service/ProductServiceTest.java:49-88 | the fixture, and the create test at lines 132-149: from an empty store, the test category, supplier and product are created under id 1, every counter moving on to 2; the product's view names both and raises no flag |
| Scenarios.GetAllProductsScenario | src/test/java/com/picnic/inventory/service/ProductServiceTest.java:90-103 | listing every product of the fixture store gives one view, named "Organic Apples" |
| Scenarios.GetLowStockProductsScenario | src/test/java/com/picnic/inventory/service/ProductServiceTest.java:180-195 | a product with stock 5 and threshold 10 is in the low-stock list, flagged low stock; the fixture product is not |
| Scenarios.LookupScenario | src/test/java/com/picnic/inventory/service/ProductServiceTest.java:105-130 | the fixture product is found by id 1 with its name and id 999 finds nothing; beyond the tests, the total is 50 times 4.99 |
| Scenarios.DuplicateSkuScenario | src/test/java/com/picnic/inventory/service/ProductServiceTest.java:151-164 | creating the fixture again fails on its SKU and stores nothing |
| Scenarios.DuplicateBarcodeScenario | src/test/java/com/picnic/inventory/service/ProductServiceTest.java:165-179 | a new SKU with the fixture's barcode fails on the barcode and stores nothing |
| Scenarios.UpdateStockScenario | src/test/java/com/picnic/inventory/service/ProductServiceTest.java:197-224 | a stock of 75 is stored; -5 is refused and leaves 75; an unknown id is not found |
| Scenarios.DeleteScenario | src/test/java/com/picnic/inventory/service/ProductServiceTest.java:225-248 | deleting id 999 fails; deleting id 1 empties the store, whose total is then absent |

## Left out

- HTTP layer. The controllers map exceptions to status codes and unpack request bodies. Only two parts are kept: the payload constraints they enforce (`ValidCreateDto`, used as a hypothesis) and the reading of an absent total as 0 (`ReportedValue`).
- Timestamps. `createdAt`/`updatedAt` and the persist/update callbacks read the wall clock. "Today" is a parameter instead.
- Money. `BigDecimal` prices are integer cents. The total is computed exactly in cents, not as a `double`.
- Bean Validation. The framework that checks field constraints at save time is not modelled. The `@Email` format is not modelled.
- Case folding. The case-insensitive searches upper-case ASCII letters only. Unicode case folding is not modelled.
- Concurrency. The check-then-save race between concurrent writers of the same key is not modelled. So is the database's own unique-constraint error, which only such a race could raise.
- Services.Inventory.SaveNewProduct: requires the new SKU and barcode to be free, because every caller has checked them. The database's rejection of a duplicate is not modelled.
- Services.Inventory.SaveProduct: requires each key of the new row to be its old value or free, for the same reason.
- Supplier delete cascade. `Supplier.products` is declared with a cascade. Whether deleting a supplier removes its products depends on the ORM, not on the service code. The model removes exactly the supplier, and a product that still references it then shows no supplier name.
- `Category.java` is not part of this model. A category is modelled as a name and a description, the two values its constructor is given. Whether deleting a referenced category is refused or cascades is not modelled. A product that references a deleted category shows no category name.
- Order of lists. `findAll` and the list queries return lists. The model returns maps keyed by id, so result order and duplicates in a list are not modelled.
- Null arguments. Null where the source would throw a `NullPointerException` or break a not-null column is not modelled: a null SKU, a null `isPerishable` or a null quantity. Required strings (name, SKU, barcode) and booleans are never null in the model; the optional strings are `Option<string>`, with `None` for null.
- Id and date ranges. Ids are unbounded integers rather than `Long`. Day numbers are unbounded, so the year limits of `LocalDate` are not modelled.
- Repository methods the services never call: `findByIsPerishableTrue`, `findByStorageLocationContainingIgnoreCase`, `findByEmail` and `findByContactPersonContainingIgnoreCase`. They are not modelled.
- Lookup wrappers. Spring's `findAll`, `findById`, `existsById` and `deleteById` are map operations on the store's fields.
