/**
 * The product repository: the catalogue queries (each keeps the active
 * products that meet its criterion, newest first) and the in-place stock
 * update. Every read goes through the product query filter, so soft-deleted
 * products are never returned or updated.
 */
module ProductRepository {
  import opened Options
  import opened Entities
  import opened Linq
  import opened Text
  import opened Data

  /** The sort key of every catalogue query. */
  function DateCreated(p: Product): int { p.dateCreated }

  /** A product the filter lets through and that is on display. */
  predicate Listed(p: Product)
  {
    !p.isDeleted && p.isActive
  }

  /** The filtered rows meeting `keep`, newest first. */
  function NewestFirst(products: seq<Product>, keep: Product -> bool): (r: seq<Product>)
    ensures SortedDescending(r, DateCreated)
    ensures multiset(r) == multiset(Where(products, keep))
    ensures forall p | p in r :: p in products && keep(p)
    ensures forall p | p in products && keep(p) :: p in r
  {
    var kept := Where(products, keep);
    var r := OrderByDescending(kept, DateCreated);
    SameMembers(r, kept);
    r
  }

  function InCategory(category: int): Product -> bool
  {
    (p: Product) => Listed(p) && p.category == category
  }

  function Featured(): Product -> bool
  {
    (p: Product) => Listed(p) && p.isFeatured
  }

  function OnSale(): Product -> bool
  {
    (p: Product) => Listed(p) && p.isOnSale && p.discountPrice.Some?
  }

  function OfBrand(brand: string): Product -> bool
  {
    (p: Product) => Listed(p) && p.brand == brand
  }

  /** `GetProductsByCategoryAsync(category)`. */
  function ProductsByCategory(products: seq<Product>, category: int): (r: seq<Product>)
    ensures SortedDescending(r, DateCreated)
    ensures forall p | p in r :: p in products && Listed(p) && p.category == category
    ensures forall p | p in products && Listed(p) && p.category == category :: p in r
  {
    NewestFirst(products, InCategory(category))
  }

  /** `GetFeaturedProductsAsync()`. */
  function FeaturedProducts(products: seq<Product>): (r: seq<Product>)
    ensures SortedDescending(r, DateCreated)
    ensures forall p | p in r :: p in products && Listed(p) && p.isFeatured
    ensures forall p | p in products && Listed(p) && p.isFeatured :: p in r
  {
    NewestFirst(products, Featured())
  }

  /** `GetProductsOnSaleAsync()`: on sale and with a discount price. */
  function ProductsOnSale(products: seq<Product>): (r: seq<Product>)
    ensures SortedDescending(r, DateCreated)
    ensures forall p | p in r :: p in products && Listed(p) && p.isOnSale && p.discountPrice.Some?
    ensures forall p | p in products && Listed(p) && p.isOnSale && p.discountPrice.Some? :: p in r
  {
    NewestFirst(products, OnSale())
  }

  /** `GetProductsByBrandAsync(brand)`: the products whose brand equals `brand`. */
  function ProductsByBrand(products: seq<Product>, brand: string): (r: seq<Product>)
    ensures SortedDescending(r, DateCreated)
    ensures forall p | p in r :: p in products && Listed(p) && p.brand == brand
    ensures forall p | p in products && Listed(p) && p.brand == brand :: p in r
  {
    NewestFirst(products, OfBrand(brand))
  }

  /** The search criterion for an already lower-cased term. */
  predicate MatchesTerm(p: Product, term: string)
  {
    Listed(p) &&
    (Contains(ToLower(p.name), term) || Contains(ToLower(p.description), term) ||
     Contains(ToLower(p.brand), term) || Contains(ToLower(p.tags), term))
  }

  function Matching(term: string): Product -> bool
  {
    (p: Product) => MatchesTerm(p, term)
  }

  /** `SearchProductsAsync(searchTerm)`: nothing for a blank term, else a case-insensitive substring match. */
  function SearchProducts(products: seq<Product>, searchTerm: string): (r: seq<Product>)
    ensures IsWhiteSpaceOnly(searchTerm) ==> r == []
    ensures SortedDescending(r, DateCreated)
    ensures forall p | p in r :: p in products && MatchesTerm(p, ToLower(searchTerm))
    ensures !IsWhiteSpaceOnly(searchTerm) ==>
      forall p | p in products && MatchesTerm(p, ToLower(searchTerm)) :: p in r
  {
    if IsWhiteSpaceOnly(searchTerm) then []
    else NewestFirst(products, Matching(ToLower(searchTerm)))
  }

  /** The search does not care about the case of the term: lower-casing it first gives the same hits. */
  lemma SearchIgnoresCase(products: seq<Product>, searchTerm: string)
    ensures SearchProducts(products, ToLower(searchTerm)) == SearchProducts(products, searchTerm)
  {
    ToLowerIdempotent(searchTerm);
    assert IsWhiteSpaceOnly(ToLower(searchTerm)) == IsWhiteSpaceOnly(searchTerm) by {
      forall i | 0 <= i < |searchTerm| ensures IsWhiteSpace(ToLower(searchTerm)[i]) == IsWhiteSpace(searchTerm[i]) {
        assert IsWhiteSpace(searchTerm[i]) ==> !IsUpperAscii(searchTerm[i]);
        assert IsUpperAscii(searchTerm[i]) ==> !IsWhiteSpace(ToLowerChar(searchTerm[i]));
      }
    }
  }

  // ---------------------------------------------------------------------------
  // The stock update

  function LiveWithId(id: int): Product -> bool
  {
    (p: Product) => p.id == id && !p.isDeleted
  }

  /** Where `FindAsync(id)` finds its product: the first row with that key the filter lets through. */
  function ProductIndexById(products: seq<Product>, id: int): (r: Option<nat>)
    ensures r.Some? ==> r.value < |products| && products[r.value].id == id && !products[r.value].isDeleted
  {
    FirstIndex(products, LiveWithId(id))
  }

  /** The lookup by position and the lookup by value agree. */
  lemma {:induction false} FindProductAt(products: seq<Product>, id: int)
    ensures FindProduct(products, id).Some? <==> ProductIndexById(products, id).Some?
    ensures FindProduct(products, id).Some? ==> FindProduct(products, id).value == products[ProductIndexById(products, id).value]
  {
    if products != [] {
      FindProductCons(products, id);
      if !(products[0].id == id && !products[0].isDeleted) {
        FindProductAt(products[1..], id);
        match FirstIndex(products[1..], LiveWithId(id))
        case None =>
        case Some(k) => assert products[1..][k] == products[k + 1];
      }
    }
  }

  /** `UpdateStockQuantityAsync(productId, quantity)`: sets the stock of the product found, with no sign check. */
  function UpdateStockStep(s: DbState, productId: int, quantity: int): Step<bool>
  {
    match ProductIndexById(s.products, productId)
    case None => Step(s, false)
    case Some(k) => Step(s.(products := s.products[k := s.products[k].(stockQuantity := quantity)]), true)
  }

  method UpdateStockQuantity(db: AppDbContext, productId: int, quantity: int) returns (ok: bool)
    modifies db
    ensures Step(db.State(), ok) == UpdateStockStep(old(db.State()), productId, quantity)
  {
    var k := ProductIndexById(db.products, productId);
    if k.None? {
      return false;
    }
    var product := db.products[k.value];
    db.products := db.products[k.value := product.(stockQuantity := quantity)];
    ok := true;
  }

  /**
   * The update reports false and changes nothing for an unknown or
   * soft-deleted product, and it never touches a table other than products.
   */
  lemma UpdateStockReports(s: DbState, productId: int, quantity: int)
    ensures var r := UpdateStockStep(s, productId, quantity);
      && (r.out <==> FindProduct(s.products, productId).Some?)
      && (!r.out ==> r.state == s)
      && r.state.(products := s.products) == s
  {
    FindProductAt(s.products, productId);
  }

  /**
   * After the update the product has exactly the given stock, with no sign
   * check, and its other fields as they were; every other product is as it was.
   */
  lemma UpdateStockSetsExactly(s: DbState, productId: int, quantity: int, pid: int)
    ensures var before := FindProduct(s.products, pid);
      var after := FindProduct(UpdateStockStep(s, productId, quantity).state.products, pid);
      && (after.Some? <==> before.Some?)
      && (before.Some? && pid == productId ==> after.value == before.value.(stockQuantity := quantity))
      && (before.Some? && pid != productId ==> after.value == before.value)
  {
    var r := UpdateStockStep(s, productId, quantity);
    FindProductAt(s.products, productId);
    FindProductAt(s.products, pid);
    FindProductAt(r.state.products, pid);
    FirstIndexSamePositions(s.products, r.state.products, LiveWithId(pid));
  }
}
