/** The queries the services run against the three tables: unique-key
    lookups, the filters behind the product lists, the per-category and
    per-supplier counts and the inventory-value sum. A table is a map from
    id to row; a query returning a list returns the matching rows keyed by
    id, since the order of the rows is left to the store. */
module Repository {
  import opened Wrappers
  import opened Model

  type ProductTable = map<int, Product>
  type CategoryTable = map<int, Category>
  type SupplierTable = map<int, Supplier>

  /** Spring Data's failure when a query declared to return at most one row
      matches several. */
  datatype QueryError = IncorrectResultSize(matches: nat)

  // ---------------------------------------------------------------------
  // Unique keys of products

  ghost predicate SkuUnique(m: ProductTable) {
    forall i, j :: i in m && j in m && m[i].sku == m[j].sku ==> i == j
  }

  ghost predicate BarcodeUnique(m: ProductTable) {
    forall i, j :: i in m && j in m && m[i].barcode == m[j].barcode ==> i == j
  }

  predicate SkuInUse(m: ProductTable, sku: string) {
    exists id :: id in m && m[id].sku == sku
  }

  predicate BarcodeInUse(m: ProductTable, barcode: string) {
    exists id :: id in m && m[id].barcode == barcode
  }

  /** The product with this SKU, if any; there is at most one. */
  function FindBySku(m: ProductTable, sku: string): (r: Option<int>)
    requires SkuUnique(m)
    ensures r.Some? <==> SkuInUse(m, sku)
    ensures r.Some? ==> r.value in m && m[r.value].sku == sku
    ensures r.Some? ==> forall id :: id in m && m[id].sku == sku ==> id == r.value
  {
    if SkuInUse(m, sku) then
      var id :| id in m && m[id].sku == sku; Some(id)
    else
      None
  }

  /** The product with this barcode, if any; there is at most one. */
  function FindByBarcode(m: ProductTable, barcode: string): (r: Option<int>)
    requires BarcodeUnique(m)
    ensures r.Some? <==> BarcodeInUse(m, barcode)
    ensures r.Some? ==> r.value in m && m[r.value].barcode == barcode
    ensures r.Some? ==> forall id :: id in m && m[id].barcode == barcode ==> id == r.value
  {
    if BarcodeInUse(m, barcode) then
      var id :| id in m && m[id].barcode == barcode; Some(id)
    else
      None
  }

  /** Adding a product whose SKU and barcode are both unused keeps both keys
      unique. */
  lemma InsertKeepsKeysUnique(m: ProductTable, id: int, p: Product)
    requires SkuUnique(m) && BarcodeUnique(m)
    requires id !in m && !SkuInUse(m, p.sku) && !BarcodeInUse(m, p.barcode)
    ensures SkuUnique(m[id := p]) && BarcodeUnique(m[id := p])
  {
  }

  /** Replacing a product keeps both keys unique when each of its keys is
      either kept or unused elsewhere. */
  lemma ReplaceKeepsKeysUnique(m: ProductTable, id: int, p: Product)
    requires SkuUnique(m) && BarcodeUnique(m) && id in m
    requires p.sku == m[id].sku || !SkuInUse(m, p.sku)
    requires p.barcode == m[id].barcode || !BarcodeInUse(m, p.barcode)
    ensures SkuUnique(m[id := p]) && BarcodeUnique(m[id := p])
  {
  }

  // ---------------------------------------------------------------------
  // Filters behind the product lists

  /** `stockQuantity <= minStockLevel`: exactly the low-stock products. */
  function FindLowStockProducts(m: ProductTable): (r: ProductTable)
    ensures forall id :: id in r <==> id in m && IsLowStock(m[id])
    ensures forall id :: id in r ==> r[id] == m[id]
  {
    map id | id in m && m[id].stockQuantity <= m[id].minStockLevel :: m[id]
  }

  /** A date present and BETWEEN the two bounds, both inclusive. */
  predicate InWindow(d: Option<Day>, today: Day, futureDate: Day) {
    d.Some? && today <= d.value && d.value <= futureDate
  }

  /** The products whose expiration date lies in [today, futureDate]. */
  function FindProductsExpiringWithinDays(m: ProductTable, today: Day, futureDate: Day): (r: ProductTable)
    ensures forall id :: id in r <==> id in m && InWindow(m[id].expirationDate, today, futureDate)
    ensures forall id :: id in r ==> r[id] == m[id]
    ensures futureDate < today ==> r == map[]
  {
    map id | id in m && m[id].expirationDate.Some?
                     && today <= m[id].expirationDate.value <= futureDate :: m[id]
  }

  /** A date present and strictly before today: exactly the expired
      products. */
  function FindExpiredProducts(m: ProductTable, today: Day): (r: ProductTable)
    ensures forall id :: id in r <==> id in m && IsExpired(m[id], today)
    ensures forall id :: id in r ==> r[id] == m[id]
  {
    map id | id in m && m[id].expirationDate.Some? && m[id].expirationDate.value < today :: m[id]
  }

  /** For a non-negative horizon, the window query and the product's own
      flags agree except on the far end: the query takes a date exactly
      `n` days ahead, which "expiring soon" does not, and it drops the
      already-expired products, which "expiring soon" keeps. */
  lemma WindowVersusExpiringSoon(p: Product, today: Day, n: Int32)
    requires n >= 0
    ensures InWindow(p.expirationDate, today, today + n)
        <==> (IsExpiringSoon(p, today, n) && !IsExpired(p, today))
             || p.expirationDate == Some(today + n)
  {
  }

  /** The products in this category. */
  function FindByCategoryId(m: ProductTable, categoryId: int): (r: ProductTable)
    ensures forall id :: id in r <==> id in m && m[id].categoryId == Some(categoryId)
    ensures forall id :: id in r ==> r[id] == m[id]
  {
    map id | id in m && m[id].categoryId == Some(categoryId) :: m[id]
  }

  /** The products of this supplier. */
  function FindBySupplierId(m: ProductTable, supplierId: int): (r: ProductTable)
    ensures forall id :: id in r <==> id in m && m[id].supplierId == Some(supplierId)
    ensures forall id :: id in r ==> r[id] == m[id]
  {
    map id | id in m && m[id].supplierId == Some(supplierId) :: m[id]
  }

  // ---------------------------------------------------------------------
  // Case-insensitive substring search

  /** Upper-casing of the ASCII letters; other characters are kept. */
  function UpperAscii(c: char): char {
    if 'a' <= c <= 'z' then (c as int - 32) as char else c
  }

  function Upper(s: string): (r: string)
    ensures |r| == |s|
  {
    if s == [] then [] else [UpperAscii(s[0])] + Upper(s[1..])
  }

  /** `t` occurs in `s` starting at position `i`. */
  predicate OccursAt(s: string, t: string, i: int) {
    0 <= i <= |s| - |t| && s[i..i + |t|] == t
  }

  predicate ContainsSubstring(s: string, t: string) {
    exists i :: 0 <= i <= |s| && OccursAt(s, t, i)
  }

  /** `name` contains `term`, ignoring the case of ASCII letters. */
  predicate ContainsIgnoreCase(name: string, term: string) {
    ContainsSubstring(Upper(name), Upper(term))
  }

  /** Upper-casing twice is upper-casing once. */
  lemma {:induction false} UpperIdempotent(s: string)
    ensures Upper(Upper(s)) == Upper(s)
  {
    if s != [] {
      UpperIdempotent(s[1..]);
      assert Upper(s)[1..] == Upper(s[1..]);
    }
  }

  /** The empty term matches every name, and upper-casing the term does not
      change what it matches. */
  lemma SearchIgnoresCase(name: string, term: string)
    ensures ContainsIgnoreCase(name, "")
    ensures ContainsIgnoreCase(name, term) <==> ContainsIgnoreCase(name, Upper(term))
    ensures ContainsIgnoreCase(name, name)
  {
    assert OccursAt(Upper(name), Upper(""), 0);
    UpperIdempotent(term);
    assert OccursAt(Upper(name), Upper(name), 0);
  }

  function FindProductsByNameContainingIgnoreCase(m: ProductTable, term: string): (r: ProductTable)
    ensures forall id :: id in r <==> id in m && ContainsIgnoreCase(m[id].name, term)
    ensures forall id :: id in r ==> r[id] == m[id]
  {
    map id | id in m && ContainsIgnoreCase(m[id].name, term) :: m[id]
  }

  // ---------------------------------------------------------------------
  // Counts

  function CountProductsByCategory(m: ProductTable, categoryId: int): (n: nat)
    ensures n == |FindByCategoryId(m, categoryId)|
  {
    var ids := set id | id in m && m[id].categoryId == Some(categoryId);
    assert ids == FindByCategoryId(m, categoryId).Keys;
    |ids|
  }

  function CountProductsBySupplier(m: ProductTable, supplierId: int): (n: nat)
    ensures n == |FindBySupplierId(m, supplierId)|
  {
    var ids := set id | id in m && m[id].supplierId == Some(supplierId);
    assert ids == FindBySupplierId(m, supplierId).Keys;
    |ids|
  }

  /** Adding a product raises the count of its own category by one and leaves
      every other count as it was. */
  lemma CountByCategoryInsert(m: ProductTable, id: int, p: Product, categoryId: int)
    requires id !in m
    ensures CountProductsByCategory(m[id := p], categoryId)
         == CountProductsByCategory(m, categoryId) + (if p.categoryId == Some(categoryId) then 1 else 0)
  {
    var before := set i | i in m && m[i].categoryId == Some(categoryId);
    var m' := m[id := p];
    var after := set i | i in m' && m'[i].categoryId == Some(categoryId);
    if p.categoryId == Some(categoryId) {
      assert after == before + {id};
    } else {
      assert after == before;
    }
  }

  /** Removing a product lowers the count of its own category by one. */
  lemma CountByCategoryRemove(m: ProductTable, id: int, categoryId: int)
    requires id in m
    ensures CountProductsByCategory(m, categoryId)
         == CountProductsByCategory(m - {id}, categoryId) + (if m[id].categoryId == Some(categoryId) then 1 else 0)
  {
    var m' := m - {id};
    assert m'[id := m[id]] == m;
    CountByCategoryInsert(m', id, m[id], categoryId);
  }

  lemma CountBySupplierInsert(m: ProductTable, id: int, p: Product, supplierId: int)
    requires id !in m
    ensures CountProductsBySupplier(m[id := p], supplierId)
         == CountProductsBySupplier(m, supplierId) + (if p.supplierId == Some(supplierId) then 1 else 0)
  {
    var before := set i | i in m && m[i].supplierId == Some(supplierId);
    var m' := m[id := p];
    var after := set i | i in m' && m'[i].supplierId == Some(supplierId);
    if p.supplierId == Some(supplierId) {
      assert after == before + {id};
    } else {
      assert after == before;
    }
  }

  /** Removing a product lowers the count of its own supplier by one. */
  lemma CountBySupplierRemove(m: ProductTable, id: int, supplierId: int)
    requires id in m
    ensures CountProductsBySupplier(m, supplierId)
         == CountProductsBySupplier(m - {id}, supplierId) + (if m[id].supplierId == Some(supplierId) then 1 else 0)
  {
    var m' := m - {id};
    assert m'[id := m[id]] == m;
    CountBySupplierInsert(m', id, m[id], supplierId);
  }

  // ---------------------------------------------------------------------
  // Total inventory value

  /** The value of one product's stock, in cents. */
  function Value(p: Product): int {
    p.price * p.stockQuantity
  }

  lemma NonEmptyHasMember(s: set<int>)
    requires s != {}
    ensures exists k :: k in s
  {
    if forall k :: k !in s {
      assert false;
    }
  }

  lemma {:induction false} MinKeyExists(s: set<int>)
    requires s != {}
    ensures exists k :: k in s && forall j :: j in s ==> k <= j
  {
    NonEmptyHasMember(s);
    var x :| x in s;
    if s != {x} {
      MinKeyExists(s - {x});
      var y :| y in s - {x} && forall j :: j in s - {x} ==> y <= j;
      if x < y {
        forall j | j in s ensures x <= j {
          if j != x { assert j in s - {x}; }
        }
      } else {
        forall j | j in s ensures y <= j {
          if j != x { assert j in s - {x}; }
        }
      }
    } else {
      assert forall j :: j in s ==> x <= j;
    }
  }

  /** The sum of `Value` over all products, folded in increasing id order. */
  function InventorySum(m: ProductTable): int
    decreases |m|
  {
    if m == map[] then 0
    else
      MinKeyExists(m.Keys);
      var k :| k in m && forall j :: j in m ==> k <= j;
      Value(m[k]) + InventorySum(m - {k})
  }

  /** The sum query: absent over an empty table, else the sum. */
  function TotalInventoryValue(m: ProductTable): (r: Option<int>)
    ensures r.None? <==> m == map[]
    ensures r.Some? ==> r.value == InventorySum(m)
  {
    if m == map[] then None else Some(InventorySum(m))
  }

  /** The HTTP layer's reading of the sum: an absent sum is 0. */
  function ReportedValue(total: Option<int>): (v: int)
    ensures total.None? ==> v == 0
    ensures total.Some? ==> v == total.value
  {
    match total
    case None => 0
    case Some(t) => t
  }

  /** The sum does not depend on the order of the fold: any product can be
      taken out first. */
  lemma {:induction false} InventorySumRemove(m: ProductTable, k: int)
    requires k in m
    ensures InventorySum(m) == Value(m[k]) + InventorySum(m - {k})
    decreases |m|
  {
    MinKeyExists(m.Keys);
    var c :| c in m && forall j :: j in m ==> c <= j;
    assert InventorySum(m) == Value(m[c]) + InventorySum(m - {c});
    if c != k {
      InventorySumRemove(m - {c}, k);
      InventorySumRemove(m - {k}, c);
      assert m - {c} - {k} == m - {k} - {c};
    }
  }

  /** Adding a product adds its value. */
  lemma InventorySumInsert(m: ProductTable, k: int, p: Product)
    requires k !in m
    ensures InventorySum(m[k := p]) == InventorySum(m) + Value(p)
  {
    InventorySumRemove(m[k := p], k);
    assert m[k := p] - {k} == m;
  }

  /** Replacing a product swaps its value for the new one's. */
  lemma InventorySumReplace(m: ProductTable, k: int, p: Product)
    requires k in m
    ensures InventorySum(m[k := p]) == InventorySum(m) - Value(m[k]) + Value(p)
  {
    InventorySumRemove(m, k);
    InventorySumRemove(m[k := p], k);
    assert m[k := p] - {k} == m - {k};
  }

  lemma ValueNonNegative(p: Product)
    requires p.price >= 0 && p.stockQuantity >= 0
    ensures Value(p) >= 0
  {
  }

  /** With no negative price or stock, the total is not negative. */
  lemma {:induction false} InventorySumNonNegative(m: ProductTable)
    requires forall id :: id in m ==> m[id].price >= 0 && m[id].stockQuantity >= 0
    ensures InventorySum(m) >= 0
    decreases |m|
  {
    if m != map[] {
      MinKeyExists(m.Keys);
      var k :| k in m && forall j :: j in m ==> k <= j;
      ValueNonNegative(m[k]);
      InventorySumNonNegative(m - {k});
    }
  }

  /** Two products, 50 at 4.99 and 10 at 9.99, are worth 349.40 together. */
  lemma TotalValueOfTwoProducts(a: Product, b: Product)
    requires a.price == 499 && a.stockQuantity == 50
    requires b.price == 999 && b.stockQuantity == 10
    ensures TotalInventoryValue(map[1 := a, 2 := b]) == Some(349_40)
    ensures TotalInventoryValue(map[]) == None && ReportedValue(TotalInventoryValue(map[])) == 0
  {
    var m: ProductTable := map[1 := a];
    InventorySumInsert(m, 2, b);
    InventorySumInsert(map[], 1, a);
    assert map[1 := a, 2 := b] == m[2 := b];
  }

  // ---------------------------------------------------------------------
  // Categories and suppliers

  ghost predicate CategoryNamesUnique(c: CategoryTable) {
    forall i, j :: i in c && j in c && c[i].name == c[j].name ==> i == j
  }

  predicate ExistsByName(c: CategoryTable, name: string) {
    exists id :: id in c && c[id].name == name
  }

  /** The category with this name, if any; there is at most one. */
  function FindCategoryByName(c: CategoryTable, name: string): (r: Option<int>)
    requires CategoryNamesUnique(c)
    ensures r.Some? <==> ExistsByName(c, name)
    ensures r.Some? ==> r.value in c && c[r.value].name == name
    ensures r.Some? ==> forall id :: id in c && c[id].name == name ==> id == r.value
  {
    if ExistsByName(c, name) then
      var id :| id in c && c[id].name == name; Some(id)
    else
      None
  }

  function FindCategoriesByNameContainingIgnoreCase(c: CategoryTable, term: string): (r: CategoryTable)
    ensures forall id :: id in r <==> id in c && ContainsIgnoreCase(c[id].name, term)
    ensures forall id :: id in r ==> r[id] == c[id]
  {
    map id | id in c && ContainsIgnoreCase(c[id].name, term) :: c[id]
  }

  /** Emails of suppliers are unique where present; any number of suppliers
      may have none. */
  ghost predicate SupplierEmailsUnique(s: SupplierTable) {
    forall i, j :: i in s && j in s && s[i].email.Some? && s[i].email == s[j].email ==> i == j
  }

  predicate ExistsByEmail(s: SupplierTable, email: string) {
    exists id :: id in s && s[id].email == Some(email)
  }

  lemma SingletonMembers(ids: set<int>)
    requires |ids| == 1
    ensures exists x :: x in ids
    ensures forall x, y :: x in ids && y in ids ==> x == y
  {
    NonEmptyHasMember(ids);
    var x :| x in ids;
    assert |ids - {x}| == 0;
    assert ids == {x};
  }

  /** The supplier with this name. Names of suppliers are not unique: when
      several match, the lookup fails as Spring Data's single-result queries
      do. */
  function FindSupplierByName(s: SupplierTable, name: string): (r: Result<Option<int>, QueryError>)
    ensures r.Success? && r.value.None? <==> (forall id :: id in s ==> s[id].name != name)
    ensures r.Success? && r.value.Some? ==>
              r.value.value in s && forall id :: id in s && s[id].name == name ==> id == r.value.value
    ensures r.Failure? ==> exists i, j :: i in s && j in s && i != j && s[i].name == name && s[j].name == name
  {
    var ids := set id | id in s && s[id].name == name;
    if ids == {} then
      assert forall id :: id in s && s[id].name == name ==> id in ids;
      Success(None)
    else if |ids| == 1 then
      SingletonMembers(ids);
      var id :| id in ids;
      assert forall k :: k in s && s[k].name == name ==> k in ids;
      Success(Some(id))
    else
      NonEmptyHasMember(ids);
      var i :| i in ids;
      assert |ids - {i}| > 0;
      NonEmptyHasMember(ids - {i});
      var j :| j in ids - {i};
      Failure(IncorrectResultSize(|ids|))
  }

  function FindSuppliersByNameContainingIgnoreCase(s: SupplierTable, term: string): (r: SupplierTable)
    ensures forall id :: id in r <==> id in s && ContainsIgnoreCase(s[id].name, term)
    ensures forall id :: id in r ==> r[id] == s[id]
  {
    map id | id in s && ContainsIgnoreCase(s[id].name, term) :: s[id]
  }
}
