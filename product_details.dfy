/** The product page (src/routes/product-details/ProductDetails.tsx): a
    product with its reviews; an administrator can edit the product's
    fields, mark it unavailable and delete reviews. Each admin action sends
    a request and updates the page according to its outcome. */
module ProductDetails {
  import opened Shared

  datatype Product = Product(id: int, name: string, description: string, price: int, quantity: int)

  datatype Review = Review(id: int, content: string, rating: int)

  /** `reviews.filter(review => review.id !== reviewId)` */
  function ReviewsWithout(reviews: seq<Review>, reviewId: int): (r: seq<Review>)
    ensures forall rv :: rv in r <==> rv in reviews && rv.id != reviewId
    ensures |r| <= |reviews|
    decreases |reviews|
  {
    if |reviews| == 0 then []
    else if reviews[|reviews| - 1].id == reviewId then ReviewsWithout(reviews[..|reviews| - 1], reviewId)
    else ReviewsWithout(reviews[..|reviews| - 1], reviewId) + [reviews[|reviews| - 1]]
  }

  /** The surviving reviews keep their relative order: the filter
      distributes over concatenation. */
  lemma {:induction false} ReviewsWithoutAppend(a: seq<Review>, b: seq<Review>, reviewId: int)
    ensures ReviewsWithout(a + b, reviewId) == ReviewsWithout(a, reviewId) + ReviewsWithout(b, reviewId)
    decreases |b|
  {
    if |b| == 0 {
      assert a + b == a;
    } else {
      var b' := b[..|b| - 1];
      assert (a + b)[..|a + b| - 1] == a + b';
      ReviewsWithoutAppend(a, b', reviewId);
    }
  }

  /** Deleting an id no review has changes nothing. */
  lemma {:induction false} ReviewsWithoutAbsent(reviews: seq<Review>, reviewId: int)
    requires forall i :: 0 <= i < |reviews| ==> reviews[i].id != reviewId
    ensures ReviewsWithout(reviews, reviewId) == reviews
    decreases |reviews|
  {
    if |reviews| > 0 {
      ReviewsWithoutAbsent(reviews[..|reviews| - 1], reviewId);
      assert reviews[..|reviews| - 1] + [reviews[|reviews| - 1]] == reviews;
    }
  }

  /** What the page renders once loaded. */
  datatype ReviewView = ReviewView(content: string, rating: int, deleteButton: bool)

  datatype Details = Details(
    editor: bool,               // the four inputs and the save button
    unavailableBadge: bool,     // "Produkt niedostępny"
    adminButtons: bool,         // "Edytuj produkt"/"Anuluj" and "Usuń produkt"
    reviews: seq<ReviewView>,
    noReviewsText: bool)

  datatype View = View(loadingText: bool, errorText: Option<string>, details: Option<Details>)

  function ReviewViews(reviews: seq<Review>, isAdmin: bool): (r: seq<ReviewView>)
    ensures |r| == |reviews|
    ensures forall i :: 0 <= i < |reviews| ==>
              r[i].content == reviews[i].content && r[i].rating == reviews[i].rating
              && r[i].deleteButton == isAdmin
    decreases |reviews|
  {
    if |reviews| == 0 then []
    else [ReviewView(reviews[0].content, reviews[0].rating, isAdmin)] + ReviewViews(reviews[1..], isAdmin)
  }

  class ProductDetailsPage {
    const isAdmin: bool
    var product: Option<Product>
    var reviews: seq<Review>
    var loading: bool
    var editMode: bool
    var error: Option<string>

    constructor (isAdmin: bool)
      ensures this.isAdmin == isAdmin
      ensures product == None && reviews == [] && loading && !editMode && error == None
    {
      this.isAdmin := isAdmin;
      product, reviews, loading, editMode, error := None, [], true, false, None;
    }

    /** The end of `fetchData`: both responses must be 2xx for the product
        and its reviews to be stored; any failure sets one fixed message.
        `loading` is off either way. */
    method DataFetched(productResponse: Response, reviewResponse: Response,
                       fetchedProduct: Product, fetchedReviews: seq<Review>)
      modifies this
      ensures !loading && editMode == old(editMode)
      ensures productResponse.Ok? && reviewResponse.Ok? ==>
                product == Some(fetchedProduct) && reviews == fetchedReviews && error == old(error)
      ensures !(productResponse.Ok? && reviewResponse.Ok?) ==>
                product == old(product) && reviews == old(reviews)
                && error == Some("Failed to load product details.")
    {
      if productResponse.Ok? && reviewResponse.Ok? {
        product := Some(fetchedProduct);
        reviews := fetchedReviews;
      } else {
        error := Some("Failed to load product details.");
      }
      loading := false;
    }

    /** "Zapisz zmiany": a successful PUT leaves edit mode, a failed one
        keeps it and sets the message. */
    method HandleUpdateProduct(response: Response)
      modifies this
      ensures response.Ok? ==> !editMode && error == old(error)
      ensures !response.Ok? ==> editMode == old(editMode) && error == Some("Failed to update product.")
      ensures product == old(product) && reviews == old(reviews) && loading == old(loading)
    {
      if response.Ok? {
        editMode := false;
      } else {
        error := Some("Failed to update product.");
      }
    }

    method HandleDeleteReview(reviewId: int, response: Response)
      modifies this
      ensures response.Ok? ==> reviews == ReviewsWithout(old(reviews), reviewId) && error == old(error)
      ensures !response.Ok? ==> reviews == old(reviews) && error == Some("Failed to delete review.")
      ensures product == old(product) && loading == old(loading) && editMode == old(editMode)
    {
      if response.Ok? {
        reviews := ReviewsWithout(reviews, reviewId);
      } else {
        error := Some("Failed to delete review.");
      }
    }

    /** "Usuń produkt". The handler captures `product` when it is clicked
        and only writes after the PUT resolves; `snapshot` is that captured
        value. With no product nothing happens. A successful PUT stores the
        snapshot with stock 0, replacing whatever the editor inputs wrote
        meanwhile; a failed one leaves the product and sets the message. */
    method HandleSetQuantityToZero(snapshot: Option<Product>, response: Response)
      modifies this
      ensures snapshot.None? ==> product == old(product) && error == old(error)
      ensures snapshot.Some? && response.Ok? ==>
                product == Some(snapshot.value.(quantity := 0)) && error == old(error)
      ensures snapshot.Some? && !response.Ok? ==>
                product == old(product) && error == Some("Failed to update product quantity.")
      ensures reviews == old(reviews) && loading == old(loading) && editMode == old(editMode)
    {
      if snapshot.Some? {
        if response.Ok? {
          product := Some(snapshot.value.(quantity := 0));
        } else {
          error := Some("Failed to update product quantity.");
        }
      }
    }

    /** The four editor inputs: `setProduct(prev => prev && {...prev, field})`. */
    method EditName(name: string)
      modifies this
      ensures product == if old(product).None? then None else Some(old(product).value.(name := name))
      ensures reviews == old(reviews) && loading == old(loading)
      ensures editMode == old(editMode) && error == old(error)
    {
      if product.Some? { product := Some(product.value.(name := name)); }
    }

    method EditDescription(description: string)
      modifies this
      ensures product == if old(product).None? then None else Some(old(product).value.(description := description))
      ensures reviews == old(reviews) && loading == old(loading)
      ensures editMode == old(editMode) && error == old(error)
    {
      if product.Some? { product := Some(product.value.(description := description)); }
    }

    method EditPrice(price: int)
      modifies this
      ensures product == if old(product).None? then None else Some(old(product).value.(price := price))
      ensures reviews == old(reviews) && loading == old(loading)
      ensures editMode == old(editMode) && error == old(error)
    {
      if product.Some? { product := Some(product.value.(price := price)); }
    }

    method EditQuantity(quantity: int)
      modifies this
      ensures product == if old(product).None? then None else Some(old(product).value.(quantity := quantity))
      ensures reviews == old(reviews) && loading == old(loading)
      ensures editMode == old(editMode) && error == old(error)
    {
      if product.Some? { product := Some(product.value.(quantity := quantity)); }
    }

    /** "Edytuj produkt" / "Anuluj". */
    method ToggleEditMode()
      modifies this
      ensures editMode == !old(editMode)
      ensures product == old(product) && reviews == old(reviews)
      ensures loading == old(loading) && error == old(error)
    {
      editMode := !editMode;
    }

    function Render(): (v: View)
      reads this
      ensures v.loadingText == loading
      ensures v.errorText.Some? <==> Shown(error)
      ensures v.errorText.Some? ==> v.errorText == error
      ensures v.details.Some? <==> !loading && product.Some?
      ensures v.details.Some? ==>
                && v.details.value.editor == editMode
                && (v.details.value.unavailableBadge <==> !editMode && product.value.quantity == 0)
                && (v.details.value.adminButtons <==> isAdmin)
                && |v.details.value.reviews| == |reviews|
                && (forall i :: 0 <= i < |reviews| ==> v.details.value.reviews[i].deleteButton == isAdmin)
                && (v.details.value.noReviewsText <==> |reviews| == 0)
    {
      View(
        loading,
        if Shown(error) then error else None,
        if !loading && product.Some? then
          Some(Details(
            editMode,
            !editMode && product.value.quantity == 0,
            isAdmin,
            ReviewViews(reviews, isAdmin),
            |reviews| == 0))
        else None)
    }
  }

  /** A name typed into the editor while "Usuń produkt" is waiting for its
      PUT is lost: the page ends up showing the clicked-on product with
      stock 0 and its old name. */
  method EditLostDuringMarkUnavailable(p: Product, name: string) returns (shown: Option<Product>)
    requires name != p.name
    ensures shown == Some(p.(quantity := 0))
    ensures shown.value.name != name
  {
    var page := new ProductDetailsPage(true);
    page.DataFetched(Ok, Ok, p, []);
    page.ToggleEditMode();
    var snapshot := page.product;
    page.EditName(name);
    page.HandleSetQuantityToZero(snapshot, Ok);
    shown := page.product;
  }
}
