/** The order page (src/routes/order-details/OrderDetails.tsx): one order
    with its lines, each line carrying a button that opens or closes a
    review form for that product. */
module OrderDetails {
  import opened Shared

  datatype Product = Product(id: int, name: string, price: int)

  datatype OrderProduct = OrderProduct(product: Product, quantity: int)

  /** `totalPrice` is reported by the server; `orderDate` is kept as text. */
  datatype Order = Order(id: int, totalPrice: int, orderDate: string, orderProducts: seq<OrderProduct>)

  /** `expanded[productId]` read as a boolean: a missing key is `undefined`,
      which is falsy. */
  predicate IsExpanded(expanded: map<int, bool>, productId: int): (b: bool)
    ensures productId !in expanded ==> !b
    ensures productId in expanded ==> (b <==> expanded[productId])
  {
    productId in expanded && expanded[productId]
  }

  /** `handleToggleReview`: `{...prev, [productId]: !prev[productId]}`. */
  function ReviewToggled(expanded: map<int, bool>, productId: int): (r: map<int, bool>)
    ensures productId in r && r[productId] != IsExpanded(expanded, productId)
  {
    expanded[productId := !IsExpanded(expanded, productId)]
  }

  /** The toggle flips the product's flag (a missing key counts as closed
      and becomes open), writes the key explicitly, and leaves every other
      key exactly as it was. */
  lemma ToggleFlips(expanded: map<int, bool>, productId: int)
    ensures var r := ReviewToggled(expanded, productId);
      && productId in r
      && (IsExpanded(r, productId) <==> !IsExpanded(expanded, productId))
      && r.Keys == expanded.Keys + {productId}
      && forall k :: k in expanded && k != productId ==> r[k] == expanded[k]
  {
  }

  /** Toggling twice closes or reopens the form as it was, but leaves the
      key present: from a missing key the result is an explicit `false`,
      not the original map. */
  lemma ToggleTwice(expanded: map<int, bool>, productId: int)
    ensures ReviewToggled(ReviewToggled(expanded, productId), productId)
            == expanded[productId := IsExpanded(expanded, productId)]
    ensures productId !in expanded ==>
              ReviewToggled(ReviewToggled(expanded, productId), productId) != expanded
  {
    var r := ReviewToggled(ReviewToggled(expanded, productId), productId);
    assert productId in r;
  }

  /** One rendered order line. */
  datatype LineView = LineView(name: string, quantity: int, unitPrice: int, subtotal: int, reviewForm: bool)

  function LineViews(lines: seq<OrderProduct>, expanded: map<int, bool>): (r: seq<LineView>)
    ensures |r| == |lines|
    ensures forall i :: 0 <= i < |lines| ==>
              && r[i].name == lines[i].product.name
              && r[i].quantity == lines[i].quantity
              && r[i].unitPrice == lines[i].product.price
              && r[i].subtotal == lines[i].quantity * lines[i].product.price
              && (r[i].reviewForm <==> IsExpanded(expanded, lines[i].product.id))
    decreases |lines|
  {
    if |lines| == 0 then []
    else
      var item := lines[0];
      [LineView(item.product.name, item.quantity, item.product.price,
                item.quantity * item.product.price, IsExpanded(expanded, item.product.id))]
        + LineViews(lines[1..], expanded)
  }

  /** The three things the page can show. `order` may still be null in the
      last one (then there are no lines). */
  datatype Screen =
    | LoadingText
    | ErrorText(message: string)
    | OrderView(order: Option<Order>, lines: seq<LineView>)

  class OrderDetailsPage {
    var order: Option<Order>
    var loading: bool
    var error: Option<string>
    var expanded: map<int, bool>

    constructor ()
      ensures order == None && loading && error == None && expanded == map[]
    {
      order, loading, error, expanded := None, true, None, map[];
    }

    method HandleToggleReview(productId: int)
      modifies this
      ensures expanded == ReviewToggled(old(expanded), productId)
      ensures order == old(order) && loading == old(loading) && error == old(error)
    {
      expanded := ReviewToggled(expanded, productId);
    }

    /** The end of `fetchOrderDetails`: the order on success, the message
        otherwise, and `loading` off in every case. */
    method OrderFetched(response: Response, data: Order)
      modifies this
      ensures !loading && expanded == old(expanded)
      ensures response.Ok? ==> order == Some(data) && error == old(error)
      ensures response.NotOk? ==>
                order == old(order) && error == Some("Nie udało się pobrać szczegółów zamówienia.")
      ensures response.Failed? ==> order == old(order) && error == Some(response.message)
    {
      match response {
        case Ok => order := Some(data);
        case NotOk => error := Some("Nie udało się pobrać szczegółów zamówienia.");
        case Failed(message) => error := Some(message);
      }
      loading := false;
    }

    /** While loading only the loading text shows; after that a (non-empty)
        error takes precedence over the order. */
    function Render(): (s: Screen)
      reads this
      ensures loading <==> s.LoadingText?
      ensures s.ErrorText? <==> !loading && Shown(error)
      ensures s.ErrorText? ==> s.message == error.value
      ensures s.OrderView? ==> s.order == order
      ensures s.OrderView? && order.Some? ==> s.lines == LineViews(order.value.orderProducts, expanded)
      ensures s.OrderView? && order.Some? ==>
                |s.lines| == |order.value.orderProducts|
                && forall i :: 0 <= i < |s.lines| ==>
                     (s.lines[i].reviewForm <==> IsExpanded(expanded, order.value.orderProducts[i].product.id))
    {
      if loading then LoadingText
      else if Shown(error) then ErrorText(error.value)
      else OrderView(order, if order.Some? then LineViews(order.value.orderProducts, expanded) else [])
    }
  }
}
