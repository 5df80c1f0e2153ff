/** The three entities of the inventory (products, categories, suppliers)
    and the business predicates a product answers about its own fields. */
module Model {
  import opened Wrappers

  /** A Java `Integer`. */
  type Int32 = x: int | -0x8000_0000 <= x < 0x8000_0000

  /** A calendar date, as a day number; "today" is always passed in. */
  type Day = int

  /** A money amount in cents: a price of 4.99 is 499. */
  type Cents = int

  /** A stored product. The references to a category and a supplier are
      held by id; `None` is a null reference. */
  datatype Product = Product(
    name: string,
    description: Option<string>,
    sku: string,
    barcode: string,
    price: Cents,
    stockQuantity: Int32,
    minStockLevel: Int32,
    expirationDate: Option<Day>,
    isPerishable: bool,
    storageLocation: Option<string>,
    categoryId: Option<int>,
    supplierId: Option<int>)

  datatype Category = Category(name: string, description: Option<string>)

  datatype Supplier = Supplier(
    name: string,
    email: Option<string>,
    phone: Option<string>,
    address: Option<string>,
    contactPerson: Option<string>)

  // ---------------------------------------------------------------------
  // Business predicates of a product

  /** Stock at or below the reorder threshold. */
  predicate IsLowStock(p: Product) {
    p.stockQuantity <= p.minStockLevel
  }

  /** The product expires before the day `daysThreshold` days from today. */
  predicate IsExpiringSoon(p: Product, today: Day, daysThreshold: Int32) {
    match p.expirationDate
    case None => false
    case Some(d) => d < today + daysThreshold
  }

  /** The product's expiration date lies strictly before today. */
  predicate IsExpired(p: Product, today: Day) {
    match p.expirationDate
    case None => false
    case Some(d) => d < today
  }

  /** A product expired at the day `n` days from now is exactly one that is
      "expiring soon" with threshold `n` today. */
  lemma ExpiringSoonIsExpiredLater(p: Product, today: Day, n: Int32)
    ensures IsExpiringSoon(p, today, n) <==> IsExpired(p, today + n)
  {
  }

  /** Stock equal to the threshold already counts as low stock; one more
      unit clears the flag. */
  lemma LowStockAtThreshold(p: Product)
    requires p.stockQuantity == p.minStockLevel
    requires p.stockQuantity < 0x7fff_ffff
    ensures IsLowStock(p)
    ensures !IsLowStock(p.(stockQuantity := p.stockQuantity + 1))
  {
  }

  /** Without an expiration date a product is never expired nor expiring. */
  lemma NoDateNeverFlagged(p: Product, today: Day, n: Int32)
    requires p.expirationDate.None?
    ensures !IsExpired(p, today) && !IsExpiringSoon(p, today, n)
  {
  }

  /** A product that expires today is not yet expired; tomorrow it is. */
  lemma ExpiresTodayNotExpired(p: Product, today: Day)
    requires p.expirationDate == Some(today)
    ensures !IsExpired(p, today) && IsExpired(p, today + 1)
  {
  }

  /** The far end of the "expiring soon" window is exclusive: a date exactly
      `n` days ahead is not flagged, one day earlier is. */
  lemma ExpiringSoonFarEndExclusive(p: Product, today: Day, n: Int32)
    requires p.expirationDate == Some(today + n)
    ensures !IsExpiringSoon(p, today, n)
    ensures n < 0x7fff_ffff ==> IsExpiringSoon(p, today, n + 1)
    ensures IsExpiringSoon(p.(expirationDate := Some(today + n - 1)), today, n)
  {
  }

  /** With a non-negative threshold, an expired product is also expiring
      soon. */
  lemma ExpiredImpliesExpiringSoon(p: Product, today: Day, n: Int32)
    requires n >= 0
    ensures IsExpired(p, today) ==> IsExpiringSoon(p, today, n)
  {
  }

  // ---------------------------------------------------------------------
  // Field constraints of a product

  /** The length Java's `String.length()` gives: the number of UTF-16 code
      units, so a character beyond the Basic Multilingual Plane counts twice. */
  function Utf16Length(s: string): (n: nat)
    ensures |s| <= n <= 2 * |s|
  {
    if s == [] then 0
    else (if s[0] as int >= 0x1_0000 then 2 else 1) + Utf16Length(s[1..])
  }

  /** A string of Basic Multilingual Plane characters has one code unit per
      character; one apple emoji is two code units, and a pair of them four,
      enough for the three-unit minimum of a SKU. */
  lemma {:induction false} Utf16LengthOfBmp(s: string)
    ensures (forall i :: 0 <= i < |s| ==> s[i] as int < 0x1_0000) ==> Utf16Length(s) == |s|
    ensures Utf16Length("\U{1F34E}") == 2 && Utf16Length("\U{1F34E}\U{1F34E}") == 4
  {
    if s != [] {
      Utf16LengthOfBmp(s[1..]);
      assert forall i :: 0 <= i < |s[1..]| ==> s[1..][i] == s[i + 1];
    }
    assert "\U{1F34E}\U{1F34E}"[1..] == "\U{1F34E}";
    assert "\U{1F34E}"[1..] == "";
  }

  /** Not blank in the Bean Validation sense: something is left after
      trimming the characters up to and including the space. */
  predicate NotBlank(s: string) {
    exists i :: 0 <= i < |s| && s[i] > ' '
  }

  /** A price of at most 8 integer digits and 2 fraction digits, of at
      least 0.01. */
  predicate ValidPrice(price: Cents) {
    1 <= price <= 99_999_999_99
  }

  /** The column constraints of a product, lengths in UTF-16 code units. */
  predicate ValidProduct(p: Product) {
    && NotBlank(p.name) && 2 <= Utf16Length(p.name) <= 100
    && (p.description.Some? ==> Utf16Length(p.description.value) <= 500)
    && NotBlank(p.sku) && 3 <= Utf16Length(p.sku) <= 50
    && NotBlank(p.barcode) && 8 <= Utf16Length(p.barcode) <= 20
    && ValidPrice(p.price)
    && p.stockQuantity >= 0
    && p.minStockLevel >= 0
    && (p.storageLocation.Some? ==> Utf16Length(p.storageLocation.value) <= 100)
  }

  /** Changing only the stock to a non-negative amount keeps a valid product
      valid, and a negative amount never gives a valid product. */
  lemma StockChangeValidity(p: Product, q: Int32)
    requires ValidProduct(p)
    ensures ValidProduct(p.(stockQuantity := q)) <==> q >= 0
  {
  }
}
