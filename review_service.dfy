/**
 * Product reviews: creation with its validations (rating 1 to 5, a
 * non-blank comment stored trimmed, one review per user and product),
 * partial updates, soft deletion, and reads that show active reviews only.
 * Every failure of the wrapped operations surfaces as `OperationFailed`.
 */
module ReviewService {
  import opened Common
  import opened Entities
  import opened Repositories

  /** A review request; `None` stands for a field the request leaves null. */
  datatype ReviewRequest = ReviewRequest(userId: UserId, productId: ProductId, rating: Option<int>, comment: Option<string>)

  predicate ValidRating(rating: int) { 1 <= rating <= 5 }

  /** The user has a review of the product, active or not. */
  predicate HasReviewed(reviews: map<ReviewId, Review>, u: UserId, p: ProductId)
  {
    exists k :: k in reviews && reviews[k].user == u && reviews[k].product == p
  }

  /** At most one review per (user, product). */
  predicate OneReviewPerUserAndProduct(reviews: map<ReviewId, Review>)
  {
    forall a, b :: a in reviews && b in reviews && a != b ==>
      !(reviews[a].user == reviews[b].user && reviews[a].product == reviews[b].product)
  }

  /** What every stored review satisfies when it was made or edited by this service. */
  predicate WellFormedReview(r: Review)
  {
    ValidRating(r.rating) && !IsBlank(r.comment) && Trim(r.comment) == r.comment
  }

  /**
   * The validations of `createReview`, in order: user, product, rating,
   * comment, then the one-review rule.
   */
  function ValidateCreation(users: map<UserId, User>, products: map<ProductId, Product>, reviews: map<ReviewId, Review>, req: ReviewRequest)
    : (c: Check)
    ensures c == Pass <==>
      req.userId in users && req.productId in products
      && req.rating.Some? && ValidRating(req.rating.value)
      && req.comment.Some? && !IsBlank(req.comment.value)
      && !HasReviewed(reviews, req.userId, req.productId)
    ensures c.Fail? && req.userId in users && req.productId in products ==>
      c.error in {Invalid(Rating), Invalid(Comment), AlreadyReviewed}
    ensures req.userId !in users ==> c == Fail(NotFound(UserRecord))
    ensures req.userId in users && req.productId !in products ==> c == Fail(NotFound(ProductRecord))
    ensures req.userId in users && req.productId in products
              && !(req.rating.Some? && ValidRating(req.rating.value))
      ==> c == Fail(Invalid(Rating))
    ensures req.userId in users && req.productId in products
              && req.rating.Some? && ValidRating(req.rating.value)
              && !(req.comment.Some? && !IsBlank(req.comment.value))
      ==> c == Fail(Invalid(Comment))
    ensures req.userId in users && req.productId in products
              && req.rating.Some? && ValidRating(req.rating.value)
              && req.comment.Some? && !IsBlank(req.comment.value)
              && HasReviewed(reviews, req.userId, req.productId)
      ==> c == Fail(AlreadyReviewed)
  {
    if req.userId !in users then Fail(NotFound(UserRecord))
    else if req.productId !in products then Fail(NotFound(ProductRecord))
    else if req.rating.None? || req.rating.value < 1 || req.rating.value > 5 then Fail(Invalid(Rating))
    else if req.comment.None? || IsBlank(req.comment.value) then Fail(Invalid(Comment))
    else if HasReviewed(reviews, req.userId, req.productId) then Fail(AlreadyReviewed)
    else Pass
  }

  /**
   * `createReview`: a review passing the validations is stored active under
   * the next key, with its comment trimmed.
   */
  method CreateReview(st: Store, req: ReviewRequest) returns (r: Result<ReviewId>)
    requires st.Valid()
    modifies st`reviews, st`nextReviewId
    ensures st.Valid()
    ensures r.Err? <==> ValidateCreation(st.users, st.products, old(st.reviews), req).Fail?
    ensures r.Err? ==>
      r.error == OperationFailed(ValidateCreation(st.users, st.products, old(st.reviews), req).error)
      && st.reviews == old(st.reviews) && st.nextReviewId == old(st.nextReviewId)
    ensures r.Ok? ==>
      r.value == old(st.nextReviewId) && r.value !in old(st.reviews)
      && st.reviews == old(st.reviews)[r.value := Review(req.userId, req.productId, Trim(req.comment.value), req.rating.value, true)]
      && WellFormedReview(st.reviews[r.value]) && st.reviews[r.value].isActive
    ensures old(OneReviewPerUserAndProduct(st.reviews)) ==> OneReviewPerUserAndProduct(st.reviews)
  {
    var check := ValidateCreation(st.users, st.products, st.reviews, req);
    if check.Fail? {
      return Err(OperationFailed(check.error));
    }
    var id := st.nextReviewId;
    var review := Review(req.userId, req.productId, Trim(req.comment.value), req.rating.value, true);
    TrimIdempotent(req.comment.value);
    st.reviews := st.reviews[id := review];
    st.nextReviewId := st.nextReviewId + 1;
    r := Ok(id);
  }

  /** A second review of the same product by the same user is always refused. */
  lemma SecondReviewRefused(users: map<UserId, User>, products: map<ProductId, Product>, reviews: map<ReviewId, Review>, id: ReviewId, req: ReviewRequest)
    requires id in reviews && reviews[id].user == req.userId && reviews[id].product == req.productId
    ensures ValidateCreation(users, products, reviews, req).Fail?
  {
  }

  /** Active reviews of product `p`. */
  function ActiveOfProduct(reviews: map<ReviewId, Review>, p: ProductId): map<ReviewId, Review>
  {
    map k | k in reviews && reviews[k].product == p && reviews[k].isActive :: reviews[k]
  }

  /** Active reviews written by user `u`. */
  function ActiveOfUser(reviews: map<ReviewId, Review>, u: UserId): map<ReviewId, Review>
  {
    map k | k in reviews && reviews[k].user == u && reviews[k].isActive :: reviews[k]
  }

  /** `getReviewsByProduct`: an unknown product fails; otherwise its active reviews only. */
  function GetReviewsByProduct(products: map<ProductId, Product>, reviews: map<ReviewId, Review>, p: ProductId)
    : (r: Result<map<ReviewId, Review>>)
    ensures r.Err? <==> p !in products
    ensures r.Err? ==> r.error == OperationFailed(NotFound(ProductRecord))
    ensures r.Ok? ==> forall k :: k in r.value <==> k in reviews && reviews[k].product == p && reviews[k].isActive
    ensures r.Ok? ==> forall k :: k in r.value ==> r.value[k] == reviews[k]
  {
    if p !in products then Err(OperationFailed(NotFound(ProductRecord))) else Ok(ActiveOfProduct(reviews, p))
  }

  /** `getReviewsByUser`: an unknown user fails; otherwise their active reviews only. */
  function GetReviewsByUser(users: map<UserId, User>, reviews: map<ReviewId, Review>, u: UserId)
    : (r: Result<map<ReviewId, Review>>)
    ensures r.Err? <==> u !in users
    ensures r.Err? ==> r.error == OperationFailed(NotFound(UserRecord))
    ensures r.Ok? ==> forall k :: k in r.value <==> k in reviews && reviews[k].user == u && reviews[k].isActive
    ensures r.Ok? ==> forall k :: k in r.value ==> r.value[k] == reviews[k]
  {
    if u !in users then Err(OperationFailed(NotFound(UserRecord))) else Ok(ActiveOfUser(reviews, u))
  }

  /** `getReviewById`: a missing and a deactivated review are both not found (this read is not wrapped). */
  function GetReviewById(reviews: map<ReviewId, Review>, id: ReviewId): (r: Result<Review>)
    ensures r.Ok? <==> id in reviews && reviews[id].isActive
    ensures r.Ok? ==> r.value == reviews[id]
    ensures r.Err? ==> r.error == NotFound(ReviewRecord)
  {
    if id !in reviews || !reviews[id].isActive then Err(NotFound(ReviewRecord)) else Ok(reviews[id])
  }

  /** The review an accepted update leaves: a given rating and a given non-blank comment (trimmed) replace the old ones. */
  function Edited(before: Review, rating: Option<int>, comment: Option<string>): (after: Review)
    ensures after.user == before.user && after.product == before.product && after.isActive == before.isActive
    ensures rating.Some? && ValidRating(rating.value) && WellFormedReview(before) ==> WellFormedReview(after)
    ensures rating.None? && WellFormedReview(before) ==> WellFormedReview(after)
  {
    if comment.Some? && !IsBlank(comment.value) then
      TrimIdempotent(comment.value);
      before.(rating := if rating.Some? then rating.value else before.rating, comment := Trim(comment.value))
    else
      before.(rating := if rating.Some? then rating.value else before.rating)
  }

  /** Rewriting one review without changing its author or product keeps one review per (user, product). */
  lemma SameKeysKeepUnique(reviews: map<ReviewId, Review>, id: ReviewId, after: Review)
    requires id in reviews && after.user == reviews[id].user && after.product == reviews[id].product
    ensures OneReviewPerUserAndProduct(reviews) ==> OneReviewPerUserAndProduct(reviews[id := after])
  {
  }

  /**
   * `updateReview`: the review must exist (active or not). A supplied
   * rating must be 1 to 5; a supplied comment replaces the old one, trimmed,
   * unless it is blank. Author, product and activity are kept.
   */
  method UpdateReview(st: Store, id: ReviewId, rating: Option<int>, comment: Option<string>) returns (r: Result<Review>)
    requires st.Valid()
    modifies st`reviews
    ensures st.Valid()
    ensures id !in old(st.reviews) ==> r == Err(OperationFailed(NotFound(ReviewRecord)))
    ensures id in old(st.reviews) && rating.Some? && !ValidRating(rating.value) ==> r == Err(OperationFailed(Invalid(Rating)))
    ensures id in old(st.reviews) && (rating.None? || ValidRating(rating.value)) ==> r.Ok?
    ensures r.Err? ==> st.reviews == old(st.reviews)
    ensures r.Ok? ==>
      id in old(st.reviews) && (rating.Some? ==> ValidRating(rating.value))
      && var before := old(st.reviews)[id];
         r.value.user == before.user && r.value.product == before.product && r.value.isActive == before.isActive
         && r.value.rating == (if rating.Some? then rating.value else before.rating)
         && r.value.comment == (if comment.Some? && !IsBlank(comment.value) then Trim(comment.value) else before.comment)
         && st.reviews == old(st.reviews)[id := r.value]
    ensures old(OneReviewPerUserAndProduct(st.reviews)) ==> OneReviewPerUserAndProduct(st.reviews)
    ensures r.Ok? && old(WellFormedReview(st.reviews[id])) ==> WellFormedReview(r.value)
  {
    if id !in st.reviews {
      return Err(OperationFailed(NotFound(ReviewRecord)));
    }
    if rating.Some? && (rating.value < 1 || rating.value > 5) {
      return Err(OperationFailed(Invalid(Rating)));
    }
    var before := st.reviews[id];
    var edited := Edited(before, rating, comment);
    assert edited.rating == (if rating.Some? then rating.value else before.rating);
    assert edited.comment == (if comment.Some? && !IsBlank(comment.value) then Trim(comment.value) else before.comment);
    SameKeysKeepUnique(st.reviews, id, edited);
    st.reviews := st.reviews[id := edited];
    r := Ok(edited);
  }

  /**
   * `deleteReview`: a soft delete. The record stays, marked inactive, and
   * disappears from every read.
   */
  method DeleteReview(st: Store, id: ReviewId) returns (r: Check)
    requires st.Valid()
    modifies st`reviews
    ensures st.Valid()
    ensures r.Fail? <==> id !in old(st.reviews)
    ensures r.Fail? ==> r.error == OperationFailed(NotFound(ReviewRecord)) && st.reviews == old(st.reviews)
    ensures r.Pass? ==> st.reviews == old(st.reviews)[id := old(st.reviews)[id].(isActive := false)]
    ensures r.Pass? ==> id in st.reviews && GetReviewById(st.reviews, id) == Err(NotFound(ReviewRecord))
    ensures r.Pass? ==> id !in ActiveOfProduct(st.reviews, st.reviews[id].product) && id !in ActiveOfUser(st.reviews, st.reviews[id].user)
    ensures old(OneReviewPerUserAndProduct(st.reviews)) ==> OneReviewPerUserAndProduct(st.reviews)
  {
    if id !in st.reviews {
      return Fail(OperationFailed(NotFound(ReviewRecord)));
    }
    st.reviews := st.reviews[id := st.reviews[id].(isActive := false)];
    r := Pass;
  }

  /** A soft-deleted review still blocks a new review of the same product by the same user. */
  lemma DeletedReviewStillBlocks(users: map<UserId, User>, products: map<ProductId, Product>, reviews: map<ReviewId, Review>, id: ReviewId)
    requires id in reviews
    ensures var after := reviews[id := reviews[id].(isActive := false)];
      ValidateCreation(users, products, after, ReviewRequest(reviews[id].user, reviews[id].product, Some(5), Some("ok"))).Fail?
      && GetReviewById(after, id).Err?
  {
    var after := reviews[id := reviews[id].(isActive := false)];
    assert id in after && after[id].user == reviews[id].user && after[id].product == reviews[id].product;
  }
}
