/** The product data carried in and out of the services: the create/update
    payload and the response view. Both carry data only. */
module Dto {
  import opened Wrappers
  import opened Model

  /** The payload of a product create or full update. */
  datatype ProductCreateDto = ProductCreateDto(
    name: string,
    description: Option<string>,
    sku: string,
    barcode: string,
    price: Cents,
    stockQuantity: Int32,
    minStockLevel: Int32,
    expirationDate: Option<Day>,
    isPerishable: bool,
    storageLocation: Option<string>,
    categoryId: Option<int>,
    supplierId: Option<int>)

  /** The constraints the payload class declares, which the HTTP layer checks
      before a create or update reaches the service; lengths are in UTF-16
      code units. */
  predicate ValidCreateDto(dto: ProductCreateDto) {
    && NotBlank(dto.name) && 2 <= Utf16Length(dto.name) <= 100
    && NotBlank(dto.sku) && 3 <= Utf16Length(dto.sku) <= 50
    && NotBlank(dto.barcode) && 8 <= Utf16Length(dto.barcode) <= 20
    && dto.price >= 1
    && dto.stockQuantity >= 0
    && dto.minStockLevel >= 0
  }

  /** A product as the services return it: its fields, the names of its
      category and supplier, and the three business flags computed when the
      view is made. */
  datatype ProductView = ProductView(
    id: int,
    name: string,
    description: Option<string>,
    sku: string,
    barcode: string,
    price: Cents,
    stockQuantity: Int32,
    minStockLevel: Int32,
    expirationDate: Option<Day>,
    isPerishable: bool,
    storageLocation: Option<string>,
    categoryName: Option<string>,
    supplierName: Option<string>,
    isLowStock: bool,
    isExpired: bool,
    isExpiringSoon: bool)
}
