/**
 * The catalogue: building a product from a request (defaults, the pending
 * status, the specification list and the sub-category check), creating,
 * updating and deleting products on behalf of their vendor, changing a
 * product's status and listing a sub-category. Every failure inside the
 * guarded operations surfaces wrapped as `OperationFailed`.
 */
module ProductService {
  import opened Common
  import opened Entities
  import opened Repositories
  import ProductStatuses

  /** One requested specification; the display order may be left out. */
  datatype SpecRequest = SpecRequest(key: string, value: string, displayOrder: Option<int>)

  /** A product request; `None` stands for a field the request leaves null. */
  datatype ProductRequest = ProductRequest(
    name: string,
    description: Option<string>,
    price: Money,
    stock: int,
    imageUrls: Option<seq<string>>,
    discount: Option<real>,
    brand: Option<string>,
    categoryId: CategoryId,
    subCategoryId: Option<SubCategoryId>,
    specifications: Option<seq<SpecRequest>>)

  /** The specification a request entry becomes. */
  function SpecFrom(s: SpecRequest): Specification
  {
    Specification(s.key, s.value, if s.displayOrder.Some? then s.displayOrder.value else 0)
  }

  /** Every stored product's sub-category, when it has one, exists and belongs to the product's category. */
  predicate SubCategoriesConsistent(products: map<ProductId, Product>, subCategories: map<SubCategoryId, CategoryId>)
  {
    forall p :: p in products && products[p].subCategory.Some? ==>
      products[p].subCategory.value in subCategories
      && subCategories[products[p].subCategory.value] == products[p].category
  }

  /** No sub-category, or one that exists and belongs to `category`. */
  predicate SubCategoryFits(subCategories: map<SubCategoryId, CategoryId>, sub: Option<SubCategoryId>, category: CategoryId)
  {
    sub.None? || (sub.value in subCategories && subCategories[sub.value] == category)
  }

  /**
   * The specification loop of `toEntity` and `updateProduct`: one
   * specification per requested entry, in order, with display order 0 when
   * the entry gives none; a missing or empty list gives none.
   */
  method BuildSpecifications(specs: Option<seq<SpecRequest>>) returns (r: seq<Specification>)
    ensures specs.None? ==> r == []
    ensures specs.Some? ==> |r| == |specs.value|
    ensures specs.Some? ==> forall i :: 0 <= i < |r| ==>
      r[i].key == specs.value[i].key && r[i].value == specs.value[i].value
      && r[i].displayOrder == (if specs.value[i].displayOrder.Some? then specs.value[i].displayOrder.value else 0)
  {
    r := [];
    if specs.Some? && specs.value != [] {
      var i := 0;
      while i < |specs.value|
        invariant 0 <= i <= |specs.value| && |r| == i
        invariant forall k :: 0 <= k < i ==> r[k] == SpecFrom(specs.value[k])
      {
        r := r + [SpecFrom(specs.value[i])];
        i := i + 1;
      }
    }
  }

  /**
   * The product `toEntity` builds from a request: pending, with the
   * request's fields, an empty image list and a zero discount when those are
   * left out, the requested sub-category and one specification per entry.
   */
  predicate BuiltFrom(p: Product, req: ProductRequest, category: CategoryId, vendor: UserId)
  {
    p.status == ProductStatuses.Pending
    && p.name == req.name && p.description == req.description && p.price == req.price && p.stock == req.stock
    && p.imageUrls == (if req.imageUrls.Some? then req.imageUrls.value else [])
    && p.discount == (if req.discount.Some? then req.discount.value else 0.0)
    && p.brand == req.brand
    && p.category == category && p.vendor == vendor && p.subCategory == req.subCategoryId
    && |p.specifications| == (if req.specifications.Some? then |req.specifications.value| else 0)
    && (forall i :: 0 <= i < |p.specifications| ==> p.specifications[i] == SpecFrom(req.specifications.value[i]))
  }

  /**
   * `toEntity`: a pending product with the request's fields, an empty image
   * list and a zero discount when those are left out, and the requested
   * sub-category, which must exist and belong to the given category.
   */
  method ToEntity(subCategories: map<SubCategoryId, CategoryId>, req: ProductRequest, category: CategoryId, vendor: UserId)
    returns (r: Result<Product>)
    ensures req.subCategoryId.Some? && req.subCategoryId.value !in subCategories ==>
      r == Err(NotFound(SubCategoryRecord))
    ensures req.subCategoryId.Some? && req.subCategoryId.value in subCategories
              && subCategories[req.subCategoryId.value] != category
      ==> r == Err(SubCategoryMismatch)
    ensures r.Ok? <==> SubCategoryFits(subCategories, req.subCategoryId, category)
    ensures r.Ok? ==> BuiltFrom(r.value, req, category, vendor)
  {
    var specs := BuildSpecifications(req.specifications);
    var product := Product(
      req.name, req.description, req.price, req.stock,
      if req.discount.Some? then req.discount.value else 0.0,
      req.brand,
      if req.imageUrls.Some? then req.imageUrls.value else [],
      ProductStatuses.Pending, category, None, vendor, specs);
    if req.subCategoryId.Some? {
      var sub := req.subCategoryId.value;
      if sub !in subCategories {
        return Err(NotFound(SubCategoryRecord));
      }
      if subCategories[sub] != category {
        return Err(SubCategoryMismatch);
      }
      product := product.(subCategory := Some(sub));
    }
    r := Ok(product);
  }

  /**
   * `createProduct`: the category, then the vendor's user, must exist; the
   * product built by `toEntity` is stored under the next key.
   */
  method CreateProduct(st: Store, req: ProductRequest, vendorId: UserId) returns (r: Result<ProductId>)
    requires st.Valid()
    modifies st`products, st`nextProductId
    ensures st.Valid()
    ensures req.categoryId !in st.categories ==> r == Err(OperationFailed(NotFound(CategoryRecord)))
    ensures req.categoryId in st.categories && vendorId !in st.users ==> r == Err(OperationFailed(NotFound(UserRecord)))
    ensures req.categoryId in st.categories && vendorId in st.users ==>
      (r.Ok? <==> SubCategoryFits(st.subCategories, req.subCategoryId, req.categoryId))
    ensures req.categoryId in st.categories && vendorId in st.users
              && req.subCategoryId.Some? && req.subCategoryId.value !in st.subCategories
      ==> r == Err(OperationFailed(NotFound(SubCategoryRecord)))
    ensures req.categoryId in st.categories && vendorId in st.users
              && req.subCategoryId.Some? && req.subCategoryId.value in st.subCategories
              && st.subCategories[req.subCategoryId.value] != req.categoryId
      ==> r == Err(OperationFailed(SubCategoryMismatch))
    ensures r.Err? ==> r.error.OperationFailed? && st.products == old(st.products) && st.nextProductId == old(st.nextProductId)
    ensures r.Ok? ==>
      req.categoryId in st.categories && vendorId in st.users
      && r.value == old(st.nextProductId) && r.value !in old(st.products) && r.value in st.products
      && st.products == old(st.products)[r.value := st.products[r.value]]
      && BuiltFrom(st.products[r.value], req, req.categoryId, vendorId)
    ensures old(SubCategoriesConsistent(st.products, st.subCategories)) ==> SubCategoriesConsistent(st.products, st.subCategories)
  {
    if req.categoryId !in st.categories {
      return Err(OperationFailed(NotFound(CategoryRecord)));
    }
    if vendorId !in st.users {
      return Err(OperationFailed(NotFound(UserRecord)));
    }
    var built := ToEntity(st.subCategories, req, req.categoryId, vendorId);
    if built.Err? {
      return Err(OperationFailed(built.error));
    }
    var id := st.nextProductId;
    st.products := st.products[id := built.value];
    st.nextProductId := st.nextProductId + 1;
    r := Ok(id);
  }

  /**
   * `updateProduct`: the product must exist and belong to the calling
   * vendor, and the category must exist. Name, description, price and stock
   * are overwritten; images, discount and brand only when given; the
   * sub-category is replaced (cleared when none is given) and must belong to
   * the category; the specification list is replaced wholesale. Status and
   * vendor are kept.
   */
  method UpdateProduct(st: Store, id: ProductId, req: ProductRequest, vendorId: UserId) returns (r: Result<Product>)
    requires st.Valid()
    modifies st`products
    ensures st.Valid()
    ensures id !in old(st.products) ==> r == Err(OperationFailed(NotFound(ProductRecord)))
    ensures id in old(st.products) && old(st.products)[id].vendor != vendorId ==> r == Err(OperationFailed(Unauthorized))
    ensures id in old(st.products) && old(st.products)[id].vendor == vendorId && req.categoryId !in st.categories ==>
      r == Err(OperationFailed(NotFound(CategoryRecord)))
    ensures id in old(st.products) && old(st.products)[id].vendor == vendorId && req.categoryId in st.categories ==>
      (r.Ok? <==> SubCategoryFits(st.subCategories, req.subCategoryId, req.categoryId))
    ensures id in old(st.products) && old(st.products)[id].vendor == vendorId && req.categoryId in st.categories
              && req.subCategoryId.Some? && req.subCategoryId.value !in st.subCategories
      ==> r == Err(OperationFailed(NotFound(SubCategoryRecord)))
    ensures id in old(st.products) && old(st.products)[id].vendor == vendorId && req.categoryId in st.categories
              && req.subCategoryId.Some? && req.subCategoryId.value in st.subCategories
              && st.subCategories[req.subCategoryId.value] != req.categoryId
      ==> r == Err(OperationFailed(SubCategoryMismatch))
    ensures r.Err? ==> r.error.OperationFailed? && st.products == old(st.products)
    ensures r.Ok? ==>
      id in old(st.products) && old(st.products)[id].vendor == vendorId && req.categoryId in st.categories
      && st.products == old(st.products)[id := r.value]
      && var before, p := old(st.products)[id], r.value;
         p.name == req.name && p.description == req.description && p.price == req.price && p.stock == req.stock
         && p.imageUrls == (if req.imageUrls.Some? then req.imageUrls.value else before.imageUrls)
         && p.discount == (if req.discount.Some? then req.discount.value else before.discount)
         && p.brand == (if req.brand.Some? then req.brand else before.brand)
         && p.category == req.categoryId && p.subCategory == req.subCategoryId
         && p.status == before.status && p.vendor == before.vendor
         && |p.specifications| == (if req.specifications.Some? then |req.specifications.value| else 0)
         && (forall i :: 0 <= i < |p.specifications| ==> p.specifications[i] == SpecFrom(req.specifications.value[i]))
    ensures old(SubCategoriesConsistent(st.products, st.subCategories)) ==> SubCategoriesConsistent(st.products, st.subCategories)
  {
    if id !in st.products {
      return Err(OperationFailed(NotFound(ProductRecord)));
    }
    var existing := st.products[id];
    if existing.vendor != vendorId {
      return Err(OperationFailed(Unauthorized));
    }
    if req.categoryId !in st.categories {
      return Err(OperationFailed(NotFound(CategoryRecord)));
    }
    existing := existing.(
      name := req.name, description := req.description, price := req.price, stock := req.stock,
      imageUrls := if req.imageUrls.Some? then req.imageUrls.value else existing.imageUrls,
      category := req.categoryId,
      discount := if req.discount.Some? then req.discount.value else existing.discount,
      brand := if req.brand.Some? then req.brand else existing.brand);
    if req.subCategoryId.Some? {
      var sub := req.subCategoryId.value;
      if sub !in st.subCategories {
        return Err(OperationFailed(NotFound(SubCategoryRecord)));
      }
      if st.subCategories[sub] != req.categoryId {
        return Err(OperationFailed(SubCategoryMismatch));
      }
      existing := existing.(subCategory := Some(sub));
    } else {
      existing := existing.(subCategory := None);
    }
    var specs := BuildSpecifications(req.specifications);
    existing := existing.(specifications := specs);
    st.products := st.products[id := existing];
    r := Ok(existing);
  }

  /** Some cart line or order line refers to product `id`. */
  predicate Referenced(st: Store, id: ProductId)
    reads st
  {
    (exists row :: row in st.cartItems && row.product == id)
    || (exists o :: o in st.orders && exists l :: l in st.orders[o].lines && l.product == id)
  }

  /**
   * `deleteProduct`: the product must exist and belong to the calling
   * vendor. Its reviews go with it; a cart line or order line still
   * referring to it makes the database refuse the delete when the
   * transaction commits, outside the wrapping.
   */
  method DeleteProduct(st: Store, id: ProductId, vendorId: UserId) returns (r: Check)
    requires st.Valid()
    modifies st`products, st`reviews
    ensures st.Valid()
    ensures id !in old(st.products) ==> r == Fail(OperationFailed(NotFound(ProductRecord)))
    ensures id in old(st.products) && old(st.products)[id].vendor != vendorId ==> r == Fail(OperationFailed(Unauthorized))
    ensures id in old(st.products) && old(st.products)[id].vendor == vendorId && Referenced(st, id) ==>
      r == Fail(ForeignKeyViolation)
    ensures id in old(st.products) && old(st.products)[id].vendor == vendorId && !Referenced(st, id) ==> r.Pass?
    ensures r.Fail? ==> st.products == old(st.products) && st.reviews == old(st.reviews)
    ensures r.Pass? ==>
      id in old(st.products) && old(st.products)[id].vendor == vendorId && !Referenced(st, id)
      && st.products == old(st.products) - {id}
      && st.reviews == map k | k in old(st.reviews) && old(st.reviews)[k].product != id :: old(st.reviews)[k]
  {
    if id !in st.products {
      return Fail(OperationFailed(NotFound(ProductRecord)));
    }
    if st.products[id].vendor != vendorId {
      return Fail(OperationFailed(Unauthorized));
    }
    if Referenced(st, id) {
      return Fail(ForeignKeyViolation);
    }
    st.products := st.products - {id};
    st.reviews := map k | k in st.reviews && st.reviews[k].product != id :: st.reviews[k];
    r := Pass;
  }

  /** `changeProductStatus`: any status may be set on a stored product. */
  method ChangeProductStatus(st: Store, id: ProductId, status: ProductStatuses.ProductStatus) returns (r: Result<Product>)
    requires st.Valid()
    modifies st`products
    ensures st.Valid()
    ensures id !in old(st.products) ==> r == Err(OperationFailed(NotFound(ProductRecord))) && st.products == old(st.products)
    ensures id in old(st.products) ==>
      r == Ok(old(st.products)[id].(status := status)) && st.products == old(st.products)[id := r.value]
    ensures old(SubCategoriesConsistent(st.products, st.subCategories)) ==> SubCategoriesConsistent(st.products, st.subCategories)
  {
    if id !in st.products {
      return Err(OperationFailed(NotFound(ProductRecord)));
    }
    var p := st.products[id].(status := status);
    st.products := st.products[id := p];
    r := Ok(p);
  }

  /**
   * `getProductsBySubCategory`: an unknown sub-category fails; otherwise
   * exactly the products filed under it.
   */
  function GetProductsBySubCategory(products: map<ProductId, Product>, subCategories: map<SubCategoryId, CategoryId>, s: SubCategoryId)
    : (r: Result<map<ProductId, Product>>)
    ensures r.Err? <==> s !in subCategories
    ensures r.Err? ==> r.error == OperationFailed(NotFound(SubCategoryRecord))
    ensures r.Ok? ==> forall p :: p in r.value <==> p in products && products[p].subCategory == Some(s)
    ensures r.Ok? ==> forall p :: p in r.value ==> r.value[p] == products[p]
    ensures r.Ok? && SubCategoriesConsistent(products, subCategories) ==>
      forall p :: p in r.value ==> r.value[p].category == subCategories[s]
  {
    if s !in subCategories then Err(OperationFailed(NotFound(SubCategoryRecord)))
    else Ok(map p | p in products && products[p].subCategory == Some(s) :: products[p])
  }
}
