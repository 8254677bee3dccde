/**
 * The product mapper: entity to DTO, create-DTO to entity, the in-place
 * update from an update-DTO, and the URL slug derived from a product name.
 */
module ProductMapper {
  import opened Options
  import opened Entities
  import opened Text

  /** `ProductDto`: every product field except the soft-delete flag. */
  datatype ProductDto = ProductDto(
    id: int,
    name: string,
    description: string,
    price: real,
    discountPrice: Option<real>,
    isOnSale: bool,
    stockQuantity: int,
    sku: string,
    category: int,
    gender: Gender,
    availableSizes: string,
    availableColors: string,
    brand: string,
    mainImageUrl: string,
    additionalImageUrls: string,
    averageRating: real,
    numberOfRatings: int,
    slug: string,
    isFeatured: bool,
    isActive: bool,
    dateCreated: Timestamp,
    tags: string)

  /** The fields of `CreateProductDto` that the mapper reads. */
  datatype CreateProductDto = CreateProductDto(
    name: string,
    description: string,
    price: real,
    discountPrice: Option<real>,
    isOnSale: bool,
    stockQuantity: int,
    category: int,
    gender: Gender,
    availableSizes: string,
    availableColors: string,
    brand: string,
    tags: string)

  /** `UpdateProductDto` without its uploaded file (the image arrives as a stored path instead). */
  datatype UpdateProductDto = UpdateProductDto(
    name: string,
    description: string,
    price: real,
    discountPrice: Option<real>,
    isOnSale: bool,
    stockQuantity: int,
    category: int,
    gender: Gender,
    availableSizes: string,
    availableColors: string,
    brand: string,
    clearAdditionalImages: bool,
    isFeatured: bool,
    isActive: bool,
    tags: string)

  // ---------------------------------------------------------------------------
  // Slugs

  /** The `Replace` calls of `GenerateSlug`, in the order they are chained. */
  const SlugReplacements: seq<(char, string)> :=
    [(' ', "-"), ('&', "and"), ('\'', ""), ('"', ""), ('?', ""), ('!', ""), (':', ""), (';', ""), ('/', "-"), ('\\', "-")]

  /** The characters a slug never contains. */
  const Forbidden: set<char> := {' ', '&', '\'', '"', '?', '!', ':', ';', '/', '\\'}

  /** No upper-case ASCII letter and no character of `cs`. */
  predicate Clean(s: string, cs: set<char>)
  {
    forall c | c in s :: !IsUpperAscii(c) && c !in cs
  }

  /** A chain of `Replace` calls, applied left to right. */
  function ReplaceAll(s: string, pairs: seq<(char, string)>): string
    decreases |pairs|
  {
    if pairs == [] then s else ReplaceAll(ReplaceChar(s, pairs[0].0, pairs[0].1), pairs[1..])
  }

  /** The patterns of a chain. */
  function Patterns(pairs: seq<(char, string)>): set<char>
  {
    set i | 0 <= i < |pairs| :: pairs[i].0
  }

  /** `GenerateSlug(name)`: lower-cased, spaces and slashes to dashes, `&` spelled out, punctuation dropped. */
  function GenerateSlug(name: string): (r: string)
    ensures Clean(r, Forbidden)
  {
    SlugPatterns();
    SlugReplacementsClean();
    var cs: set<char> := {};
    assert cs + Forbidden == Forbidden;
    ReplaceAllKeepsClean(ToLower(name), SlugReplacements, cs);
    ReplaceAll(ToLower(name), SlugReplacements)
  }

  /**
   * A chain keeps a clean string clean and removes each of its patterns, when
   * no replacement brings back an upper-case letter or a pattern.
   */
  lemma {:induction false} ReplaceAllKeepsClean(s: string, pairs: seq<(char, string)>, cs: set<char>)
    requires Clean(s, cs)
    requires forall i | 0 <= i < |pairs| :: Clean(pairs[i].1, cs + Patterns(pairs))
    ensures Clean(ReplaceAll(s, pairs), cs + Patterns(pairs))
    decreases |pairs|
  {
    if pairs != [] {
      var (c, rep) := pairs[0];
      var s1 := ReplaceChar(s, c, rep);
      ReplaceCharMembers(s, c, rep);
      assert Clean(rep, cs + Patterns(pairs));
      assert Clean(s1, cs + {c});
      assert Patterns(pairs) == {c} + Patterns(pairs[1..]) by {
        forall x | x in Patterns(pairs) ensures x in {c} + Patterns(pairs[1..]) {
          var i :| 0 <= i < |pairs| && pairs[i].0 == x;
          if i > 0 {
            assert pairs[1..][i - 1] == pairs[i];
          }
        }
        forall x | x in Patterns(pairs[1..]) ensures x in Patterns(pairs) {
          var i :| 0 <= i < |pairs[1..]| && pairs[1..][i].0 == x;
          assert pairs[i + 1] == pairs[1..][i];
        }
      }
      forall i | 0 <= i < |pairs[1..]| ensures Clean(pairs[1..][i].1, (cs + {c}) + Patterns(pairs[1..])) {
        assert pairs[1..][i] == pairs[i + 1];
      }
      ReplaceAllKeepsClean(s1, pairs[1..], cs + {c});
    }
  }

  /** A chain leaves alone a string that contains none of its patterns. */
  lemma {:induction false} ReplaceAllOfClean(s: string, pairs: seq<(char, string)>)
    requires forall i | 0 <= i < |pairs| :: pairs[i].0 !in s
    ensures ReplaceAll(s, pairs) == s
    decreases |pairs|
  {
    if pairs != [] {
      assert forall i | 0 <= i < |pairs[1..]| :: pairs[1..][i] == pairs[i + 1];
      ReplaceAllOfClean(s, pairs[1..]);
    }
  }

  /** The patterns of the slug chain are exactly the forbidden characters. */
  lemma SlugPatterns()
    ensures Patterns(SlugReplacements) == Forbidden
  {
    forall x | x in Forbidden ensures x in Patterns(SlugReplacements) {
      if x == ' ' { assert SlugReplacements[0].0 == x; }
      else if x == '&' { assert SlugReplacements[1].0 == x; }
      else if x == '\'' { assert SlugReplacements[2].0 == x; }
      else if x == '"' { assert SlugReplacements[3].0 == x; }
      else if x == '?' { assert SlugReplacements[4].0 == x; }
      else if x == '!' { assert SlugReplacements[5].0 == x; }
      else if x == ':' { assert SlugReplacements[6].0 == x; }
      else if x == ';' { assert SlugReplacements[7].0 == x; }
      else if x == '/' { assert SlugReplacements[8].0 == x; }
      else { assert SlugReplacements[9].0 == x; }
    }
  }

  /** No replacement of the slug chain brings back an upper-case letter or a forbidden character. */
  lemma SlugReplacementsClean()
    ensures forall i | 0 <= i < |SlugReplacements| :: Clean(SlugReplacements[i].1, Forbidden)
  {
    assert forall i | 0 <= i < |SlugReplacements| :: SlugReplacements[i].1 in {"-", "and", ""};
    assert Clean("-", Forbidden) by { assert forall c | c in "-" :: c == '-'; }
    assert Clean("and", Forbidden) by { assert forall c | c in "and" :: c == 'a' || c == 'n' || c == 'd'; }
  }

  /** A slug is its own slug. */
  lemma SlugIsIdempotent(name: string)
    ensures GenerateSlug(GenerateSlug(name)) == GenerateSlug(name)
  {
    var slug := GenerateSlug(name);
    forall i | 0 <= i < |slug| ensures !IsUpperAscii(slug[i]) {
      assert slug[i] in slug;
    }
    ToLowerKeepsLowerCase(slug);
    SlugPatterns();
    forall i | 0 <= i < |SlugReplacements| ensures SlugReplacements[i].0 !in slug {
      assert SlugReplacements[i].0 in Patterns(SlugReplacements);
    }
    ReplaceAllOfClean(slug, SlugReplacements);
  }

  // ---------------------------------------------------------------------------
  // Entity to DTO

  /** The projection of one product. */
  function ProductToDto(p: Product): (r: ProductDto)
    ensures r.id == p.id && r.name == p.name && r.slug == p.slug && r.sku == p.sku
    ensures r.price == p.price && r.discountPrice == p.discountPrice
    ensures r.isOnSale == p.isOnSale && r.stockQuantity == p.stockQuantity
    ensures r.isActive == p.isActive && r.isFeatured == p.isFeatured && r.dateCreated == p.dateCreated
  {
    ProductDto(p.id, p.name, p.description, p.price, p.discountPrice, p.isOnSale, p.stockQuantity, p.sku,
               p.category, p.gender, p.availableSizes, p.availableColors, p.brand, p.mainImageUrl,
               p.additionalImageUrls, p.averageRating, p.numberOfRatings, p.slug, p.isFeatured, p.isActive,
               p.dateCreated, p.tags)
  }

  /** `ToProductDto`: a null product maps to null. */
  function ToProductDto(p: Option<Product>): (r: Option<ProductDto>)
    ensures r.Some? <==> p.Some?
    ensures p.Some? ==> r.value == ProductToDto(p.value)
  {
    match p
    case None => None
    case Some(q) => Some(ProductToDto(q))
  }

  /** `ToProductDtoList`: null maps to an empty list; otherwise one DTO per product, in order. */
  function ToProductDtoList(products: Option<seq<Product>>): (r: seq<ProductDto>)
    ensures products.None? ==> r == []
    ensures products.Some? ==> |r| == |products.value|
    ensures products.Some? ==> forall i | 0 <= i < |r| :: r[i] == ProductToDto(products.value[i])
  {
    match products
    case None => []
    case Some(ps) => seq(|ps|, i requires 0 <= i < |ps| => ProductToDto(ps[i]))
  }

  // ---------------------------------------------------------------------------
  // DTO to entity

  /**
   * `ToEntity(dto, mainImagePath, additionalImagePaths)`: a new, active
   * product. Fields the mapper leaves unset keep their type defaults and the
   * key is assigned on save.
   */
  function ToEntity(dto: Option<CreateProductDto>, mainImagePath: string, additionalImagePaths: string, now: Timestamp)
    : (r: Option<Product>)
    ensures r.Some? <==> dto.Some?
    ensures dto.Some? ==>
      && r.value.isActive && !r.value.isDeleted && !r.value.isFeatured
      && r.value.slug == GenerateSlug(dto.value.name)
      && r.value.mainImageUrl == mainImagePath && r.value.additionalImageUrls == additionalImagePaths
      && r.value.name == dto.value.name && r.value.price == dto.value.price
      && r.value.discountPrice == dto.value.discountPrice && r.value.isOnSale == dto.value.isOnSale
      && r.value.stockQuantity == dto.value.stockQuantity && r.value.dateCreated == now
  {
    match dto
    case None => None
    case Some(d) =>
      Some(Product(0, d.name, d.description, d.price, d.discountPrice, d.isOnSale, d.stockQuantity, "",
                   d.category, d.gender, d.availableSizes, d.availableColors, d.brand, mainImagePath,
                   additionalImagePaths, 0.0, 0, GenerateSlug(d.name), false, true, now, d.tags, false))
  }

  // ---------------------------------------------------------------------------
  // The in-place update

  /** The product after `UpdateEntity`: the dto's fields, a fresh slug, and the image paths only when given. */
  function Updated(p: Product, dto: UpdateProductDto, mainImagePath: string, additionalImagePaths: string): Product
  {
    p.(name := dto.name, description := dto.description, price := dto.price, discountPrice := dto.discountPrice,
       isOnSale := dto.isOnSale, stockQuantity := dto.stockQuantity, category := dto.category, gender := dto.gender,
       availableSizes := dto.availableSizes, availableColors := dto.availableColors, brand := dto.brand,
       tags := dto.tags, slug := GenerateSlug(dto.name),
       mainImageUrl := if mainImagePath != "" then mainImagePath else p.mainImageUrl,
       additionalImageUrls := if additionalImagePaths != "" then additionalImagePaths else p.additionalImageUrls)
  }

  /** A tracked product entity, updated in place. */
  class ProductEntity {
    var row: Product

    constructor(p: Product)
      ensures row == p
    {
      row := p;
    }
  }

  /** `UpdateEntity(product, dto, mainImagePath, additionalImagePaths)`; a null product or dto changes nothing. */
  method UpdateEntity(product: ProductEntity?, dto: Option<UpdateProductDto>, mainImagePath: string, additionalImagePaths: string)
    modifies product
    ensures product != null && dto.Some? ==>
      product.row == Updated(old(product.row), dto.value, mainImagePath, additionalImagePaths)
    ensures product != null && dto.None? ==> product.row == old(product.row)
  {
    if product == null || dto.None? {
      return;
    }
    var d := dto.value;
    product.row := product.row.(name := d.name, description := d.description, price := d.price,
      discountPrice := d.discountPrice, isOnSale := d.isOnSale, stockQuantity := d.stockQuantity,
      category := d.category, gender := d.gender, availableSizes := d.availableSizes,
      availableColors := d.availableColors);
    product.row := product.row.(brand := d.brand, tags := d.tags, slug := GenerateSlug(d.name));
    if mainImagePath != "" {
      product.row := product.row.(mainImageUrl := mainImagePath);
    }
    if additionalImagePaths != "" {
      product.row := product.row.(additionalImageUrls := additionalImagePaths);
    }
  }

  /**
   * The update never changes the key, the flags `IsActive` and `IsFeatured`
   * (although the dto carries both), the SKU, the creation date, the ratings
   * or the soft-delete flag; an empty image path keeps the stored one.
   */
  lemma UpdateKeepsUnmappedFields(p: Product, dto: UpdateProductDto, mainImagePath: string, additionalImagePaths: string)
    ensures var q := Updated(p, dto, mainImagePath, additionalImagePaths);
      && q.id == p.id && q.isActive == p.isActive && q.isFeatured == p.isFeatured
      && q.sku == p.sku && q.dateCreated == p.dateCreated && q.isDeleted == p.isDeleted
      && q.averageRating == p.averageRating && q.numberOfRatings == p.numberOfRatings
      && (mainImagePath == "" ==> q.mainImageUrl == p.mainImageUrl)
      && (mainImagePath != "" ==> q.mainImageUrl == mainImagePath)
      && (additionalImagePaths == "" ==> q.additionalImageUrls == p.additionalImageUrls)
      && (additionalImagePaths != "" ==> q.additionalImageUrls == additionalImagePaths)
      && q.name == dto.name && q.stockQuantity == dto.stockQuantity && q.slug == GenerateSlug(dto.name)
  {
  }

  /** Applying the same update twice is the same as applying it once. */
  lemma UpdateIsIdempotent(p: Product, dto: UpdateProductDto, mainImagePath: string, additionalImagePaths: string)
    ensures var q := Updated(p, dto, mainImagePath, additionalImagePaths);
      Updated(q, dto, mainImagePath, additionalImagePaths) == q
  {
  }
}
