/** The cases of the product service's unit tests, replayed against the
    store. The store's methods are used through their contracts alone; the
    read functions and the inventory sum are also seen through their
    definitions. */
module Scenarios {
  import opened Wrappers
  import opened Model
  import opened Dto
  import opened Repository
  import opened Services

  /** The payload of the tests: organic apples at 4.99, 50 in stock,
      threshold 10, expiring in two weeks, in category 1 from supplier 1. */
  function ApplesPayload(today: Day): ProductCreateDto {
    ProductCreateDto("Organic Apples", Some("Fresh organic apples"), "ORG-APP-001", "1234567890123",
                     499, 50, 10, Some(today + 14), true, Some("Refrigerator A1"), Some(1), Some(1))
  }

  const Fruits := Category("Fruits", Some("Fresh fruits"))
  const FreshFoods := Supplier("Fresh Foods Inc", Some("contact@freshfoods.com"), Some("123-456-7890"),
                               Some("123 Main St"), None)

  /** A new store holding the fruit category, the supplier and the apples,
      each under id 1. The create succeeds, and its view names both. */
  method SetUp(today: Day) returns (inventory: Inventory, view: ProductView)
    ensures fresh(inventory) && inventory.Valid()
    ensures inventory.categories == map[1 := Fruits] && inventory.suppliers == map[1 := FreshFoods]
    ensures inventory.products == map[1 := CreatedProduct(ApplesPayload(today))]
    ensures inventory.nextProductId == 2 && inventory.nextCategoryId == 2 && inventory.nextSupplierId == 2
    ensures view.id == 1 && view.name == "Organic Apples" && view.sku == "ORG-APP-001"
    ensures view.categoryName == Some("Fruits") && view.supplierName == Some("Fresh Foods Inc")
    ensures !view.isLowStock && !view.isExpired && !view.isExpiringSoon
  {
    inventory := new Inventory();
    var category := inventory.CreateCategory("Fruits", Some("Fresh fruits"));
    assert category.Success?;
    var supplier := inventory.CreateSupplier("Fresh Foods Inc", Some("contact@freshfoods.com"),
                                             Some("123-456-7890"), Some("123 Main St"));
    assert supplier.Success?;
    var created := inventory.CreateProduct(ApplesPayload(today), today);
    assert created.Success?;
    view := created.value;
  }

  method GetAllProductsScenario(today: Day) {
    var inventory, _ := SetUp(today);
    var all := inventory.GetAllProducts(today);
    assert all.Keys == {1};
    assert all[1].name == "Organic Apples";
  }

  /** A product with 5 in stock and a threshold of 10 is listed as low on
      stock, and flagged so; the fixture product, with 50, is not. */
  method GetLowStockProductsScenario(today: Day) {
    var inventory, _ := SetUp(today);
    var low := ApplesPayload(today).(sku := "LOW-001", barcode := "9876543210987",
                                    stockQuantity := 5, minStockLevel := 10);
    assert inventory.products[1].sku != low.sku && inventory.products[1].barcode != low.barcode;
    var created := inventory.CreateProduct(low, today);
    assert created.Success? && created.value.id == 2;
    var listed := inventory.GetLowStockProducts(today);
    assert 2 in listed && listed[2].isLowStock;
    assert 1 !in listed;
  }

  method LookupScenario(today: Day) {
    var inventory, _ := SetUp(today);
    assert inventory.GetProductById(1, today).Some?;
    assert inventory.GetProductById(1, today).value.name == "Organic Apples";
    assert inventory.GetProductById(999, today).None?;
    var apples := CreatedProduct(ApplesPayload(today));
    InventorySumInsert(map[], 1, apples);
    assert map[][1 := apples] == inventory.products;
    assert inventory.GetTotalInventoryValue() == Some(499 * 50);
  }

  method DuplicateSkuScenario(today: Day) {
    var inventory, _ := SetUp(today);
    var dto := ApplesPayload(today);
    assert inventory.products[1].sku == dto.sku;
    var again := inventory.CreateProduct(dto, today);
    assert again == Failure(DuplicateSku("ORG-APP-001"));
    assert inventory.products == map[1 := CreatedProduct(dto)];
  }

  method DuplicateBarcodeScenario(today: Day) {
    var inventory, _ := SetUp(today);
    var dto := ApplesPayload(today).(sku := "ORG-APP-002");
    assert inventory.products[1].sku != dto.sku;
    assert inventory.products[1].barcode == dto.barcode;
    var again := inventory.CreateProduct(dto, today);
    assert again == Failure(DuplicateBarcode("1234567890123"));
    assert inventory.products == map[1 := CreatedProduct(ApplesPayload(today))];
  }

  method UpdateStockScenario(today: Day) {
    var inventory, _ := SetUp(today);
    var stocked := inventory.UpdateStock(1, 75, today);
    assert stocked.Success? && stocked.value.stockQuantity == 75;
    var refused := inventory.UpdateStock(1, -5, today);
    assert refused == Failure(NegativeStockQuantity);
    assert inventory.products[1].stockQuantity == 75;
    var unknown := inventory.UpdateStock(999, 5, today);
    assert unknown == Failure(ProductNotFound(999));
  }

  method DeleteScenario(today: Day) {
    var inventory, _ := SetUp(today);
    var missing := inventory.DeleteProduct(999);
    assert missing == Fail(ProductNotFound(999));
    var deleted := inventory.DeleteProduct(1);
    assert deleted == Pass && inventory.products == map[];
    assert inventory.GetTotalInventoryValue() == None;
  }
}
