/** The product, category and supplier services as transactions over one
    in-memory store. Every operation either fails with the error its
    service throws and leaves the store as it was (the transaction rolls
    back), or makes exactly the change its contract states. */
module Services {
  import opened Wrappers
  import opened Model
  import opened Dto
  import opened Repository

  /** One constructor per `IllegalArgumentException` the services throw,
      carrying the value its message names. */
  datatype ServiceError =
    | DuplicateSku(sku: string)
    | DuplicateBarcode(barcode: string)
    | ProductNotFound(productId: int)
    | CategoryNotFound(categoryId: int)
    | SupplierNotFound(supplierId: int)
    | NegativeStockQuantity
    | DuplicateCategoryName(name: string)
    | DuplicateSupplierEmail(email: string)

  /** The threshold of the expiring-soon flag in a product view. */
  const ExpiringSoonDays: Int32 := 7

  /** A reference given in a payload resolves: it is absent, or its id is
      stored. */
  predicate Resolves<T>(ref: Option<int>, table: map<int, T>) {
    ref.None? || ref.value in table
  }

  // ---------------------------------------------------------------------
  // Building products from a payload

  /** A product before any setter has run. */
  const BlankProduct := Product("", None, "", "", 0, 0, 0, None, false, None, None, None)

  /** The ten scalar setters that create and update both apply. */
  function WithScalars(p: Product, dto: ProductCreateDto): Product {
    p.(name := dto.name, description := dto.description, sku := dto.sku,
       barcode := dto.barcode, price := dto.price, stockQuantity := dto.stockQuantity,
       minStockLevel := dto.minStockLevel, expirationDate := dto.expirationDate,
       isPerishable := dto.isPerishable, storageLocation := dto.storageLocation)
  }

  /** The references the payload names; an absent id keeps the current
      reference. */
  function WithReferences(p: Product, dto: ProductCreateDto): Product {
    p.(categoryId := if dto.categoryId.Some? then dto.categoryId else p.categoryId,
       supplierId := if dto.supplierId.Some? then dto.supplierId else p.supplierId)
  }

  /** The product a successful create stores. */
  function CreatedProduct(dto: ProductCreateDto): Product {
    WithReferences(WithScalars(BlankProduct, dto), dto)
  }

  /** The product a successful update stores in place of `p`. */
  function UpdatedProduct(p: Product, dto: ProductCreateDto): Product {
    WithReferences(WithScalars(p, dto), dto)
  }

  /** A created product carries every field of its payload, its references
      included, and its stock levels are non-negative when the payload
      passed validation. */
  lemma CreatedProductCarriesPayload(dto: ProductCreateDto)
    ensures var p := CreatedProduct(dto);
      && p.name == dto.name && p.description == dto.description
      && p.sku == dto.sku && p.barcode == dto.barcode && p.price == dto.price
      && p.stockQuantity == dto.stockQuantity && p.minStockLevel == dto.minStockLevel
      && p.expirationDate == dto.expirationDate && p.isPerishable == dto.isPerishable
      && p.storageLocation == dto.storageLocation
      && p.categoryId == dto.categoryId && p.supplierId == dto.supplierId
    ensures ValidCreateDto(dto) ==>
      CreatedProduct(dto).stockQuantity >= 0 && CreatedProduct(dto).minStockLevel >= 0
  {
  }

  /** An update is a full replace: the result is what creating from the same
      payload gives, except that a reference whose id is absent is kept.
      So the old scalar fields do not matter, and repeating an update
      changes nothing. */
  lemma UpdateIsFullReplace(p: Product, q: Product, dto: ProductCreateDto)
    ensures UpdatedProduct(p, dto)
         == CreatedProduct(dto).(categoryId := if dto.categoryId.Some? then dto.categoryId else p.categoryId,
                                 supplierId := if dto.supplierId.Some? then dto.supplierId else p.supplierId)
    ensures p.categoryId == q.categoryId && p.supplierId == q.supplierId ==>
              UpdatedProduct(p, dto) == UpdatedProduct(q, dto)
    ensures UpdatedProduct(UpdatedProduct(p, dto), dto) == UpdatedProduct(p, dto)
  {
  }

  // ---------------------------------------------------------------------
  // The response view

  function CategoryName(ref: Option<int>, categories: CategoryTable): Option<string> {
    if ref.Some? && ref.value in categories then Some(categories[ref.value].name) else None
  }

  function SupplierName(ref: Option<int>, suppliers: SupplierTable): Option<string> {
    if ref.Some? && ref.value in suppliers then Some(suppliers[ref.value].name) else None
  }

  /** The view of a stored product: its fields, the names of the category
      and supplier it references, and the flags computed for `today`. */
  function ToView(id: int, p: Product, categories: CategoryTable, suppliers: SupplierTable, today: Day): (v: ProductView)
    ensures v.id == id && v.name == p.name && v.description == p.description
    ensures v.sku == p.sku && v.barcode == p.barcode && v.price == p.price
    ensures v.stockQuantity == p.stockQuantity && v.minStockLevel == p.minStockLevel
    ensures v.expirationDate == p.expirationDate && v.isPerishable == p.isPerishable
    ensures v.storageLocation == p.storageLocation
    // a name exactly when the reference is present and resolves, and then the referenced one
    ensures v.categoryName.Some? <==> p.categoryId.Some? && p.categoryId.value in categories
    ensures v.categoryName.Some? ==> v.categoryName.value == categories[p.categoryId.value].name
    ensures v.supplierName.Some? <==> p.supplierId.Some? && p.supplierId.value in suppliers
    ensures v.supplierName.Some? ==> v.supplierName.value == suppliers[p.supplierId.value].name
    ensures v.isLowStock == IsLowStock(p)
    ensures v.isExpired == IsExpired(p, today)
    ensures v.isExpiringSoon == IsExpiringSoon(p, today, ExpiringSoonDays)
  {
    ProductView(id, p.name, p.description, p.sku, p.barcode, p.price,
                p.stockQuantity, p.minStockLevel, p.expirationDate, p.isPerishable,
                p.storageLocation,
                CategoryName(p.categoryId, categories), SupplierName(p.supplierId, suppliers),
                IsLowStock(p), IsExpired(p, today), IsExpiringSoon(p, today, ExpiringSoonDays))
  }

  /** The view of a freshly created product gives back its payload; it names
      a category and a supplier exactly when the payload gave their ids, and
      then names the stored ones. */
  lemma ViewOfCreatedProduct(id: int, dto: ProductCreateDto, categories: CategoryTable,
                             suppliers: SupplierTable, today: Day)
    requires Resolves(dto.categoryId, categories) && Resolves(dto.supplierId, suppliers)
    ensures var v := ToView(id, CreatedProduct(dto), categories, suppliers, today);
      && v.id == id && v.sku == dto.sku && v.barcode == dto.barcode
      && v.name == dto.name && v.description == dto.description && v.price == dto.price
      && v.stockQuantity == dto.stockQuantity && v.minStockLevel == dto.minStockLevel
      && v.expirationDate == dto.expirationDate && v.isPerishable == dto.isPerishable
      && v.storageLocation == dto.storageLocation
      && (v.categoryName.Some? <==> dto.categoryId.Some?)
      && (v.supplierName.Some? <==> dto.supplierId.Some?)
      && (dto.categoryId.Some? ==> v.categoryName == Some(categories[dto.categoryId.value].name))
      && (dto.supplierId.Some? ==> v.supplierName == Some(suppliers[dto.supplierId.value].name))
      && (v.isLowStock <==> dto.stockQuantity <= dto.minStockLevel)
  {
  }

  /** The flags of a view are consistent: an expired product is also shown
      as expiring soon, and one without a date is shown as neither. */
  lemma ViewFlagsConsistent(id: int, p: Product, categories: CategoryTable,
                            suppliers: SupplierTable, today: Day)
    ensures var v := ToView(id, p, categories, suppliers, today);
      && (v.isExpired ==> v.isExpiringSoon)
      && (p.expirationDate.None? ==> !v.isExpired && !v.isExpiringSoon)
  {
    ExpiredImpliesExpiringSoon(p, today, ExpiringSoonDays);
  }

  /** The expiring list and the expiring-soon flag disagree at the far end:
      a product that expires exactly seven days from today is in the
      seven-day list, yet its view says it is not expiring soon. */
  lemma ExpiringListIncludesUnflaggedProduct(m: ProductTable, id: int, categories: CategoryTable,
                                             suppliers: SupplierTable, today: Day)
    requires id in m && m[id].expirationDate == Some(today + ExpiringSoonDays)
    ensures id in FindProductsExpiringWithinDays(m, today, today + ExpiringSoonDays)
    ensures !ToView(id, m[id], categories, suppliers, today).isExpiringSoon
  {
  }

  // ---------------------------------------------------------------------
  // The checks of create and update, in the order the service makes them

  /** The error a create fails with, if any: a SKU in use, then a barcode in
      use, then a category id, then a supplier id that is not stored. */
  function CreateProductError(products: ProductTable, categories: CategoryTable,
                              suppliers: SupplierTable, dto: ProductCreateDto): (e: Option<ServiceError>)
    ensures e == Some(DuplicateSku(dto.sku)) <==> SkuInUse(products, dto.sku)
    ensures e == Some(DuplicateBarcode(dto.barcode))
        <==> !SkuInUse(products, dto.sku) && BarcodeInUse(products, dto.barcode)
    ensures (dto.categoryId.Some? && e == Some(CategoryNotFound(dto.categoryId.value)))
        <==> !SkuInUse(products, dto.sku) && !BarcodeInUse(products, dto.barcode)
             && !Resolves(dto.categoryId, categories)
    ensures (dto.supplierId.Some? && e == Some(SupplierNotFound(dto.supplierId.value)))
        <==> !SkuInUse(products, dto.sku) && !BarcodeInUse(products, dto.barcode)
             && Resolves(dto.categoryId, categories) && !Resolves(dto.supplierId, suppliers)
    ensures e.None?
        <==> !SkuInUse(products, dto.sku) && !BarcodeInUse(products, dto.barcode)
             && Resolves(dto.categoryId, categories) && Resolves(dto.supplierId, suppliers)
  {
    if SkuInUse(products, dto.sku) then Some(DuplicateSku(dto.sku))
    else if BarcodeInUse(products, dto.barcode) then Some(DuplicateBarcode(dto.barcode))
    else if !Resolves(dto.categoryId, categories) then Some(CategoryNotFound(dto.categoryId.value))
    else if !Resolves(dto.supplierId, suppliers) then Some(SupplierNotFound(dto.supplierId.value))
    else None
  }

  /** The error an update of `current` fails with, if any: as for a create,
      except that a SKU or barcode is checked only when it changes, so the
      product's own keys never count as taken. */
  function UpdateProductError(current: Product, products: ProductTable, categories: CategoryTable,
                              suppliers: SupplierTable, dto: ProductCreateDto): (e: Option<ServiceError>)
    ensures e == Some(DuplicateSku(dto.sku)) <==> current.sku != dto.sku && SkuInUse(products, dto.sku)
    ensures e == Some(DuplicateBarcode(dto.barcode))
        <==> !(current.sku != dto.sku && SkuInUse(products, dto.sku))
             && current.barcode != dto.barcode && BarcodeInUse(products, dto.barcode)
    ensures (dto.categoryId.Some? && e == Some(CategoryNotFound(dto.categoryId.value)))
        <==> !(current.sku != dto.sku && SkuInUse(products, dto.sku))
             && !(current.barcode != dto.barcode && BarcodeInUse(products, dto.barcode))
             && !Resolves(dto.categoryId, categories)
    ensures (dto.supplierId.Some? && e == Some(SupplierNotFound(dto.supplierId.value)))
        <==> !(current.sku != dto.sku && SkuInUse(products, dto.sku))
             && !(current.barcode != dto.barcode && BarcodeInUse(products, dto.barcode))
             && Resolves(dto.categoryId, categories) && !Resolves(dto.supplierId, suppliers)
    ensures current.sku == dto.sku && current.barcode == dto.barcode ==>
              e == CreateProductError(map[], categories, suppliers, dto)
    ensures e.None?
        <==> !(current.sku != dto.sku && SkuInUse(products, dto.sku))
             && !(current.barcode != dto.barcode && BarcodeInUse(products, dto.barcode))
             && Resolves(dto.categoryId, categories) && Resolves(dto.supplierId, suppliers)
  {
    if current.sku != dto.sku && SkuInUse(products, dto.sku) then Some(DuplicateSku(dto.sku))
    else if current.barcode != dto.barcode && BarcodeInUse(products, dto.barcode) then Some(DuplicateBarcode(dto.barcode))
    else if !Resolves(dto.categoryId, categories) then Some(CategoryNotFound(dto.categoryId.value))
    else if !Resolves(dto.supplierId, suppliers) then Some(SupplierNotFound(dto.supplierId.value))
    else None
  }

  // ---------------------------------------------------------------------
  // The store

  class Inventory {
    var products: ProductTable
    var categories: CategoryTable
    var suppliers: SupplierTable
    /** The next id of each table's identity column. */
    var nextProductId: int
    var nextCategoryId: int
    var nextSupplierId: int

    /** The unique keys hold, and every stored id was handed out before. */
    ghost predicate Valid()
      reads this
    {
      && SkuUnique(products) && BarcodeUnique(products)
      && CategoryNamesUnique(categories)
      && SupplierEmailsUnique(suppliers)
      && (forall id :: id in products ==> id < nextProductId)
      && (forall id :: id in categories ==> id < nextCategoryId)
      && (forall id :: id in suppliers ==> id < nextSupplierId)
    }

    /** No stored product has a negative stock or threshold. */
    ghost predicate StockLevelsNonNegative()
      reads this
    {
      forall id :: id in products ==> products[id].stockQuantity >= 0 && products[id].minStockLevel >= 0
    }

    constructor ()
      ensures Valid() && StockLevelsNonNegative()
      ensures products == map[] && categories == map[] && suppliers == map[]
      ensures nextProductId == 1 && nextCategoryId == 1 && nextSupplierId == 1
    {
      products, categories, suppliers := map[], map[], map[];
      nextProductId, nextCategoryId, nextSupplierId := 1, 1, 1;
    }

    // -------------------------------------------------------------------
    // Product service: reads

    function View(id: int, today: Day): ProductView
      reads this
      requires id in products
    {
      ToView(id, products[id], categories, suppliers, today)
    }

    /** Every product, as a view. */
    function GetAllProducts(today: Day): (r: map<int, ProductView>)
      reads this
      ensures r.Keys == products.Keys
      ensures forall id :: id in r ==> r[id] == View(id, today)
    {
      map id | id in products :: View(id, today)
    }

    /** The product with this id, if stored; absence is not an error. */
    function GetProductById(id: int, today: Day): (r: Option<ProductView>)
      reads this
      ensures r.Some? <==> id in products
      ensures r.Some? ==> r.value == View(id, today)
    {
      if id in products then Some(View(id, today)) else None
    }

    /** The product with this SKU, if any. */
    function GetProductBySku(sku: string, today: Day): (r: Option<ProductView>)
      reads this
      requires Valid()
      ensures r.Some? <==> SkuInUse(products, sku)
      ensures r.Some? ==> r.value.id in products && r.value.sku == sku && r.value == View(r.value.id, today)
    {
      match FindBySku(products, sku)
      case None => None
      case Some(id) => Some(View(id, today))
    }

    /** The product with this barcode, if any. */
    function GetProductByBarcode(barcode: string, today: Day): (r: Option<ProductView>)
      reads this
      requires Valid()
      ensures r.Some? <==> BarcodeInUse(products, barcode)
      ensures r.Some? ==> r.value.id in products && r.value.barcode == barcode && r.value == View(r.value.id, today)
    {
      match FindByBarcode(products, barcode)
      case None => None
      case Some(id) => Some(View(id, today))
    }

    /** Exactly the low-stock products; each view says so. */
    function GetLowStockProducts(today: Day): (r: map<int, ProductView>)
      reads this
      ensures forall id :: id in r <==> id in products && IsLowStock(products[id])
      ensures forall id :: id in r ==> r[id] == View(id, today) && r[id].isLowStock
    {
      var found := FindLowStockProducts(products);
      map id | id in found :: View(id, today)
    }

    /** The products expiring from today up to and including `days` days
      ahead; none when `days` is negative, and none of them expired. */
    function GetProductsExpiringWithinDays(days: Int32, today: Day): (r: map<int, ProductView>)
      reads this
      ensures forall id :: id in r <==> id in products && InWindow(products[id].expirationDate, today, today + days)
      ensures forall id :: id in r ==> r[id] == View(id, today) && !r[id].isExpired
      ensures days < 0 ==> r == map[]
    {
      var found := FindProductsExpiringWithinDays(products, today, today + days);
      map id | id in found :: View(id, today)
    }

    /** Exactly the expired products; each view is flagged expired and
      expiring soon. */
    function GetExpiredProducts(today: Day): (r: map<int, ProductView>)
      reads this
      ensures forall id :: id in r <==> id in products && IsExpired(products[id], today)
      ensures forall id :: id in r ==> r[id] == View(id, today) && r[id].isExpired && r[id].isExpiringSoon
    {
      var found := FindExpiredProducts(products, today);
      map id | id in found :: View(id, today)
    }

    /** The products whose name contains the term, ignoring case. */
    function SearchProductsByName(term: string, today: Day): (r: map<int, ProductView>)
      reads this
      ensures forall id :: id in r <==> id in products && ContainsIgnoreCase(products[id].name, term)
      ensures forall id :: id in r ==> r[id] == View(id, today)
    {
      var found := FindProductsByNameContainingIgnoreCase(products, term);
      map id | id in found :: View(id, today)
    }

    /** The inventory value: absent for an empty store. */
    function GetTotalInventoryValue(): (r: Option<int>)
      reads this
      ensures r.None? <==> products == map[]
      ensures r.Some? ==> r.value == InventorySum(products)
    {
      TotalInventoryValue(products)
    }

    // -------------------------------------------------------------------
    // The product table's `save`

    /** Saving a new product: it takes the next identity value. The service
      has checked that its SKU and barcode are free. */
    method SaveNewProduct(product: Product) returns (id: int)
      requires Valid()
      requires !SkuInUse(products, product.sku) && !BarcodeInUse(products, product.barcode)
      modifies this`products, this`nextProductId
      ensures Valid()
      ensures id == old(nextProductId) && id !in old(products)
      ensures products == old(products)[id := product] && nextProductId == id + 1
      ensures InventorySum(products) == InventorySum(old(products)) + Value(product)
      ensures old(StockLevelsNonNegative()) && product.stockQuantity >= 0 && product.minStockLevel >= 0
              ==> StockLevelsNonNegative()
    {
      id := nextProductId;
      InsertKeepsKeysUnique(products, id, product);
      InventorySumInsert(products, id, product);
      products := products[id := product];
      nextProductId := nextProductId + 1;
    }

    /** Saving a stored product: its row is replaced. The service has checked
      that each key of the new row is its old one or free. */
    method SaveProduct(id: int, product: Product)
      requires Valid() && id in products
      requires product.sku == products[id].sku || !SkuInUse(products, product.sku)
      requires product.barcode == products[id].barcode || !BarcodeInUse(products, product.barcode)
      modifies this`products
      ensures Valid()
      ensures products == old(products)[id := product]
      ensures InventorySum(products) == InventorySum(old(products)) - Value(old(products)[id]) + Value(product)
      ensures old(StockLevelsNonNegative()) && product.stockQuantity >= 0 && product.minStockLevel >= 0
              ==> StockLevelsNonNegative()
    {
      ReplaceKeepsKeysUnique(products, id, product);
      InventorySumReplace(products, id, product);
      products := products[id := product];
    }

    // -------------------------------------------------------------------
    // Product service: writes

    method CreateProduct(dto: ProductCreateDto, today: Day) returns (r: Result<ProductView, ServiceError>)
      requires Valid()
      modifies this`products, this`nextProductId
      ensures Valid()
      ensures r.Failure? <==> CreateProductError(old(products), categories, suppliers, dto).Some?
      ensures r.Failure? ==> r.error == CreateProductError(old(products), categories, suppliers, dto).value
      ensures r.Failure? ==> products == old(products) && nextProductId == old(nextProductId)
      ensures r.Success? ==>
        && products == old(products)[old(nextProductId) := CreatedProduct(dto)]
        && old(nextProductId) !in old(products)
        && nextProductId == old(nextProductId) + 1
        && r.value == View(old(nextProductId), today)
        && InventorySum(products) == InventorySum(old(products)) + Value(CreatedProduct(dto))
      ensures old(StockLevelsNonNegative()) && ValidCreateDto(dto) ==> StockLevelsNonNegative()
    {
      ghost var error := CreateProductError(products, categories, suppliers, dto);
      if FindBySku(products, dto.sku).Some? {
        return Failure(DuplicateSku(dto.sku));
      }
      if FindByBarcode(products, dto.barcode).Some? {
        return Failure(DuplicateBarcode(dto.barcode));
      }
      var product := WithScalars(BlankProduct, dto);
      if dto.categoryId.Some? {
        if dto.categoryId.value !in categories {
          return Failure(CategoryNotFound(dto.categoryId.value));
        }
        product := product.(categoryId := dto.categoryId);
      }
      if dto.supplierId.Some? {
        if dto.supplierId.value !in suppliers {
          return Failure(SupplierNotFound(dto.supplierId.value));
        }
        product := product.(supplierId := dto.supplierId);
      }
      assert error.None? && product == CreatedProduct(dto);
      var id := SaveNewProduct(product);
      r := Success(View(id, today));
    }

    method UpdateProduct(id: int, dto: ProductCreateDto, today: Day) returns (r: Result<ProductView, ServiceError>)
      requires Valid()
      modifies this`products
      ensures Valid()
      ensures r == Failure(ProductNotFound(id)) <==> id !in old(products)
      ensures id in old(products) ==>
        && (r.Failure? <==> UpdateProductError(old(products)[id], old(products), categories, suppliers, dto).Some?)
        && (r.Failure? ==> r.error == UpdateProductError(old(products)[id], old(products), categories, suppliers, dto).value)
      ensures r.Failure? ==> products == old(products)
      ensures r.Success? ==>
        && id in old(products)
        && products == old(products)[id := UpdatedProduct(old(products)[id], dto)]
        && r.value == View(id, today)
      ensures old(StockLevelsNonNegative()) && ValidCreateDto(dto) ==> StockLevelsNonNegative()
    {
      if id !in products {
        return Failure(ProductNotFound(id));
      }
      var product := products[id];
      ghost var error := UpdateProductError(product, products, categories, suppliers, dto);
      if product.sku != dto.sku {
        if FindBySku(products, dto.sku).Some? {
          return Failure(DuplicateSku(dto.sku));
        }
      }
      if product.barcode != dto.barcode {
        if FindByBarcode(products, dto.barcode).Some? {
          return Failure(DuplicateBarcode(dto.barcode));
        }
      }
      product := WithScalars(product, dto);
      if dto.categoryId.Some? {
        if dto.categoryId.value !in categories {
          return Failure(CategoryNotFound(dto.categoryId.value));
        }
        product := product.(categoryId := dto.categoryId);
      }
      if dto.supplierId.Some? {
        if dto.supplierId.value !in suppliers {
          return Failure(SupplierNotFound(dto.supplierId.value));
        }
        product := product.(supplierId := dto.supplierId);
      }
      assert error.None? && product == UpdatedProduct(products[id], dto);
      SaveProduct(id, product);
      r := Success(View(id, today));
    }

    method UpdateStock(id: int, newQuantity: Int32, today: Day) returns (r: Result<ProductView, ServiceError>)
      requires Valid()
      modifies this`products
      ensures Valid()
      // the id is checked before the quantity
      ensures r == Failure(ProductNotFound(id)) <==> id !in old(products)
      ensures r == Failure(NegativeStockQuantity) <==> id in old(products) && newQuantity < 0
      ensures r.Success? <==> id in old(products) && newQuantity >= 0
      ensures r.Failure? ==> products == old(products)
      ensures r.Success? ==>
        && products == old(products)[id := old(products)[id].(stockQuantity := newQuantity)]
        && r.value == View(id, today)
        && InventorySum(products) == InventorySum(old(products)) - Value(old(products)[id]) + Value(products[id])
      ensures old(StockLevelsNonNegative()) ==> StockLevelsNonNegative()
    {
      if id !in products {
        return Failure(ProductNotFound(id));
      }
      if newQuantity < 0 {
        return Failure(NegativeStockQuantity);
      }
      var product := products[id].(stockQuantity := newQuantity);
      SaveProduct(id, product);
      r := Success(View(id, today));
    }

    method DeleteProduct(id: int) returns (r: Outcome<ServiceError>)
      requires Valid()
      modifies this`products
      ensures Valid()
      ensures r == Fail(ProductNotFound(id)) <==> id !in old(products)
      ensures r.Pass? <==> id in old(products)
      ensures r.Fail? ==> products == old(products)
      ensures r.Pass? ==>
        && products == old(products) - {id}
        && InventorySum(products) == InventorySum(old(products)) - Value(old(products)[id])
      ensures old(StockLevelsNonNegative()) ==> StockLevelsNonNegative()
    {
      if id !in products {
        return Fail(ProductNotFound(id));
      }
      InventorySumRemove(products, id);
      products := products - {id};
      r := Pass;
    }

    // -------------------------------------------------------------------
    // Category service

    /** Every category. */
    function GetAllCategories(): (r: CategoryTable)
      reads this
      ensures r.Keys == categories.Keys
      ensures forall id :: id in r ==> r[id] == categories[id]
    {
      categories
    }

    function GetCategoryById(id: int): (r: Option<Category>)
      reads this
      ensures r.Some? <==> id in categories
      ensures r.Some? ==> r.value == categories[id]
    {
      if id in categories then Some(categories[id]) else None
    }

    /** The category with this name, if any; there is at most one. */
    function GetCategoryByName(name: string): (r: Option<(int, Category)>)
      reads this
      requires Valid()
      ensures r.Some? <==> ExistsByName(categories, name)
      ensures r.Some? ==> r.value.0 in categories && r.value.1 == categories[r.value.0] && r.value.1.name == name
    {
      match FindCategoryByName(categories, name)
      case None => None
      case Some(id) => Some((id, categories[id]))
    }

    function SearchCategoriesByName(term: string): (r: CategoryTable)
      reads this
      ensures forall id :: id in r <==> id in categories && ContainsIgnoreCase(categories[id].name, term)
      ensures forall id :: id in r ==> r[id] == categories[id]
    {
      FindCategoriesByNameContainingIgnoreCase(categories, term)
    }

    method CreateCategory(name: string, description: Option<string>) returns (r: Result<(int, Category), ServiceError>)
      requires Valid()
      modifies this`categories, this`nextCategoryId
      ensures Valid()
      ensures r == Failure(DuplicateCategoryName(name)) <==> ExistsByName(old(categories), name)
      ensures r.Success? <==> !ExistsByName(old(categories), name)
      ensures r.Failure? ==> categories == old(categories) && nextCategoryId == old(nextCategoryId)
      ensures r.Success? ==>
        && old(nextCategoryId) !in old(categories)
        && categories == old(categories)[old(nextCategoryId) := Category(name, description)]
        && nextCategoryId == old(nextCategoryId) + 1
        && r.value == (old(nextCategoryId), Category(name, description))
    {
      if ExistsByName(categories, name) {
        return Failure(DuplicateCategoryName(name));
      }
      var id := nextCategoryId;
      var category := Category(name, description);
      categories := categories[id := category];
      nextCategoryId := nextCategoryId + 1;
      r := Success((id, category));
    }

    method UpdateCategory(id: int, name: string, description: Option<string>) returns (r: Result<(int, Category), ServiceError>)
      requires Valid()
      modifies this`categories
      ensures Valid()
      ensures r == Failure(CategoryNotFound(id)) <==> id !in old(categories)
      // the name is checked only when it changes
      ensures r == Failure(DuplicateCategoryName(name))
          <==> id in old(categories) && old(categories)[id].name != name && ExistsByName(old(categories), name)
      ensures r.Success?
          <==> id in old(categories) && (old(categories)[id].name == name || !ExistsByName(old(categories), name))
      ensures r.Failure? ==> categories == old(categories)
      ensures r.Success? ==>
        && categories == old(categories)[id := Category(name, description)]
        && r.value == (id, Category(name, description))
    {
      if id !in categories {
        return Failure(CategoryNotFound(id));
      }
      var category := categories[id];
      if category.name != name && ExistsByName(categories, name) {
        return Failure(DuplicateCategoryName(name));
      }
      category := category.(name := name, description := description);
      categories := categories[id := category];
      r := Success((id, category));
    }

    method DeleteCategory(id: int) returns (r: Outcome<ServiceError>)
      requires Valid()
      modifies this`categories
      ensures Valid()
      ensures r == Fail(CategoryNotFound(id)) <==> id !in old(categories)
      ensures r.Pass? <==> id in old(categories)
      ensures r.Fail? ==> categories == old(categories)
      ensures r.Pass? ==> categories == old(categories) - {id}
    {
      if id !in categories {
        return Fail(CategoryNotFound(id));
      }
      categories := categories - {id};
      r := Pass;
    }

    // -------------------------------------------------------------------
    // Supplier service

    /** Every supplier. */
    function GetAllSuppliers(): (r: SupplierTable)
      reads this
      ensures r.Keys == suppliers.Keys
      ensures forall id :: id in r ==> r[id] == suppliers[id]
    {
      suppliers
    }

    function GetSupplierById(id: int): (r: Option<Supplier>)
      reads this
      ensures r.Some? <==> id in suppliers
      ensures r.Some? ==> r.value == suppliers[id]
    {
      if id in suppliers then Some(suppliers[id]) else None
    }

    /** The supplier with this name; fails when several suppliers share it. */
    function GetSupplierByName(name: string): (r: Result<Option<(int, Supplier)>, QueryError>)
      reads this
      ensures r.Success? && r.value.None? <==> (forall id :: id in suppliers ==> suppliers[id].name != name)
      ensures r.Success? && r.value.Some? ==>
        && r.value.value.0 in suppliers && r.value.value.1 == suppliers[r.value.value.0]
        && forall id :: id in suppliers && suppliers[id].name == name ==> id == r.value.value.0
      ensures r.Failure? ==>
        exists i, j :: i in suppliers && j in suppliers && i != j && suppliers[i].name == name && suppliers[j].name == name
    {
      match FindSupplierByName(suppliers, name)
      case Failure(e) => Failure(e)
      case Success(None) => Success(None)
      case Success(Some(id)) => Success(Some((id, suppliers[id])))
    }

    function SearchSuppliersByName(term: string): (r: SupplierTable)
      reads this
      ensures forall id :: id in r <==> id in suppliers && ContainsIgnoreCase(suppliers[id].name, term)
      ensures forall id :: id in r ==> r[id] == suppliers[id]
    {
      FindSuppliersByNameContainingIgnoreCase(suppliers, term)
    }

    /** The email is checked only when one is given. */
    method CreateSupplier(name: string, email: Option<string>, phone: Option<string>, address: Option<string>)
      returns (r: Result<(int, Supplier), ServiceError>)
      requires Valid()
      modifies this`suppliers, this`nextSupplierId
      ensures Valid()
      ensures (email.Some? && r == Failure(DuplicateSupplierEmail(email.value)))
          <==> email.Some? && ExistsByEmail(old(suppliers), email.value)
      ensures r.Success? <==> email.None? || !ExistsByEmail(old(suppliers), email.value)
      ensures r.Failure? ==> suppliers == old(suppliers) && nextSupplierId == old(nextSupplierId)
      ensures r.Success? ==>
        && old(nextSupplierId) !in old(suppliers)
        && suppliers == old(suppliers)[old(nextSupplierId) := Supplier(name, email, phone, address, None)]
        && nextSupplierId == old(nextSupplierId) + 1
        && r.value == (old(nextSupplierId), Supplier(name, email, phone, address, None))
    {
      if email.Some? && ExistsByEmail(suppliers, email.value) {
        return Failure(DuplicateSupplierEmail(email.value));
      }
      var id := nextSupplierId;
      var supplier := Supplier(name, email, phone, address, None);
      suppliers := suppliers[id := supplier];
      nextSupplierId := nextSupplierId + 1;
      r := Success((id, supplier));
    }

    /** The email is checked only when one is given and it changes; all five
      contact fields are overwritten, the email with none when none is
      given. */
    method UpdateSupplier(id: int, name: string, email: Option<string>, phone: Option<string>,
                          address: Option<string>, contactPerson: Option<string>)
      returns (r: Result<(int, Supplier), ServiceError>)
      requires Valid()
      modifies this`suppliers
      ensures Valid()
      ensures r == Failure(SupplierNotFound(id)) <==> id !in old(suppliers)
      ensures (email.Some? && r == Failure(DuplicateSupplierEmail(email.value)))
          <==> id in old(suppliers) && email.Some? && email != old(suppliers)[id].email
               && ExistsByEmail(old(suppliers), email.value)
      ensures r.Success?
          <==> id in old(suppliers)
               && (email.None? || email == old(suppliers)[id].email || !ExistsByEmail(old(suppliers), email.value))
      ensures r.Failure? ==> suppliers == old(suppliers)
      ensures r.Success? ==>
        && suppliers == old(suppliers)[id := Supplier(name, email, phone, address, contactPerson)]
        && r.value == (id, Supplier(name, email, phone, address, contactPerson))
    {
      if id !in suppliers {
        return Failure(SupplierNotFound(id));
      }
      var supplier := suppliers[id];
      if email.Some? && email != supplier.email && ExistsByEmail(suppliers, email.value) {
        return Failure(DuplicateSupplierEmail(email.value));
      }
      supplier := supplier.(name := name, email := email, phone := phone, address := address,
                            contactPerson := contactPerson);
      suppliers := suppliers[id := supplier];
      r := Success((id, supplier));
    }

    method DeleteSupplier(id: int) returns (r: Outcome<ServiceError>)
      requires Valid()
      modifies this`suppliers
      ensures Valid()
      ensures r == Fail(SupplierNotFound(id)) <==> id !in old(suppliers)
      ensures r.Pass? <==> id in old(suppliers)
      ensures r.Fail? ==> suppliers == old(suppliers)
      ensures r.Pass? ==> suppliers == old(suppliers) - {id}
    {
      if id !in suppliers {
        return Fail(SupplierNotFound(id));
      }
      suppliers := suppliers - {id};
      r := Pass;
    }
  }
}
