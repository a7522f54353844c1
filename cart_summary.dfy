/** The cart summary panel (src/components/cart-summary/CartSummary.tsx):
    one text line per cart entry and, for a non-empty cart, the total. */
module CartSummary {
  import opened App
  import opened Shared
  import Cart

  /** `{item.product.name} - {item.quantity} x {item.product.price} PLN` */
  datatype SummaryLine = SummaryLine(name: string, quantity: int, price: int)

  /** What the panel renders: the lines and, when shown, the total amount. */
  datatype Summary = Summary(lines: seq<SummaryLine>, total: Option<int>)

  function LineOf(item: CartItem): SummaryLine
  {
    SummaryLine(item.product.name, item.quantity, item.product.price)
  }

  /** `cart.map(...)`: one line per entry, in cart order. */
  function Lines(cart: seq<CartItem>): (r: seq<SummaryLine>)
    ensures |r| == |cart|
    ensures forall i :: 0 <= i < |cart| ==> r[i] == LineOf(cart[i])
    decreases |cart|
  {
    if |cart| == 0 then [] else [LineOf(cart[0])] + Lines(cart[1..])
  }

  /** The panel's own `totalAmount`: a left fold of
      `total + item.product.price * item.quantity` from 0. */
  function TotalAmount(cart: seq<CartItem>): (t: int)
    ensures cart == [] ==> t == 0
    decreases |cart|
  {
    if |cart| == 0 then 0
    else TotalAmount(cart[..|cart| - 1]) + cart[|cart| - 1].product.price * cart[|cart| - 1].quantity
  }

  /** The panel's reduce and the cart page's reduce agree on every cart. */
  lemma {:induction false} TotalAmountIsCartTotal(cart: seq<CartItem>)
    ensures TotalAmount(cart) == Cart.Total(cart)
    decreases |cart|
  {
    if |cart| > 0 {
      TotalAmountIsCartTotal(cart[..|cart| - 1]);
    }
  }

  /** The panel: `cart.length > 0 && ...` shows the total only for a
      non-empty cart. */
  function Render(cart: seq<CartItem>): (s: Summary)
    ensures |s.lines| == |cart|
    ensures s.total.Some? <==> |cart| > 0
  {
    Summary(Lines(cart), if |cart| > 0 then Some(TotalAmount(cart)) else None)
  }

  /** Sum of `quantity * price` over the rendered lines. */
  function LinesAmount(lines: seq<SummaryLine>): int
    decreases |lines|
  {
    if |lines| == 0 then 0 else lines[0].quantity * lines[0].price + LinesAmount(lines[1..])
  }

  /** The total the panel shows is what its own lines add up to, and it is
      the cart page's total for the same cart. */
  lemma {:induction false} TotalMatchesLines(cart: seq<CartItem>)
    requires |cart| > 0
    ensures Render(cart).total == Some(LinesAmount(Render(cart).lines))
    ensures Render(cart).total == Some(Cart.Total(cart))
  {
    TotalAmountIsCartTotal(cart);
    Cart.TotalIsSumOfLines(cart);
    LinesAmountIsSumOfLines(cart);
  }

  lemma {:induction false} LinesAmountIsSumOfLines(cart: seq<CartItem>)
    ensures LinesAmount(Lines(cart)) == Cart.SumOfLines(cart)
    decreases |cart|
  {
    if |cart| > 0 {
      LinesAmountIsSumOfLines(cart[1..]);
      assert Lines(cart)[1..] == Lines(cart[1..]);
    }
  }
}
