/** The cart page (src/routes/cart/Cart.tsx): it lists the entries of the
    cart it receives from the application shell, offers a quantity choice
    and a remove button per entry, shows the total, and holds a coupon text
    field whose button only logs. Every change to the cart goes back to the
    shell through `updateCart`. */
module Cart {
  import opened App
  import opened Shared

  /** `item.product.price * item.quantity`. */
  function LineAmount(item: CartItem): (a: int)
    ensures item.quantity == 0 ==> a == 0
    ensures item.product.price >= 0 && item.quantity >= 0 ==> a >= 0
  {
    item.product.price * item.quantity
  }

  /** `cart.reduce((sum, item) => sum + item.product.price * item.quantity, 0)`,
      a left fold. */
  function Total(cart: seq<CartItem>): (t: int)
    ensures cart == [] ==> t == 0
    decreases |cart|
  {
    if |cart| == 0 then 0 else Total(cart[..|cart| - 1]) + LineAmount(cart[|cart| - 1])
  }

  /** `cart.map(item => item.product.id === id ? {...item, quantity} : item)` */
  function QuantityChanged(cart: seq<CartItem>, id: int, quantity: int): (r: seq<CartItem>)
    ensures |r| == |cart|
    ensures forall i :: 0 <= i < |cart| ==>
              r[i] == if cart[i].product.id == id then cart[i].(quantity := quantity) else cart[i]
    decreases |cart|
  {
    if |cart| == 0 then []
    else
      var item := cart[|cart| - 1];
      QuantityChanged(cart[..|cart| - 1], id, quantity)
        + [if item.product.id == id then item.(quantity := quantity) else item]
  }

  /** `cart.filter(item => item.product.id !== id)` */
  function Removed(cart: seq<CartItem>, id: int): (r: seq<CartItem>)
    ensures !HasId(r, id)
    ensures forall item :: item in r <==> item in cart && item.product.id != id
    ensures |r| == |cart| - CountId(cart, id)
    decreases |cart|
  {
    if |cart| == 0 then []
    else if cart[|cart| - 1].product.id == id then Removed(cart[..|cart| - 1], id)
    else Removed(cart[..|cart| - 1], id) + [cart[|cart| - 1]]
  }

  /** The options of the quantity `<select>`:
      `Array.from({length: stock}, (_, i) => i + 1)`; a length below zero
      gives an empty array. */
  function QuantityOptions(stock: int): (r: seq<int>)
    ensures |r| == if stock < 0 then 0 else stock
    ensures forall i :: 0 <= i < |r| ==> r[i] == i + 1
    ensures forall v :: v in r <==> 1 <= v <= stock
    decreases if stock < 0 then 0 else stock
  {
    if stock <= 0 then [] else QuantityOptions(stock - 1) + [stock]
  }

  /** What the page renders: the "empty cart" notice, or the entries (each
      with its name, price, quantity select and remove button), the coupon
      field and the total heading, which holds a spinner while loading. */
  datatype CartScreen = EmptyCart | Filled(entries: seq<CartItem>, coupon: string, total: Option<int>)

  /** The page's own state. `app` stands for the parent that passed `cart`
      and `updateCart`; the cart itself lives there. */
  class CartPage {
    const app: AppState
    var coupon: string
    var loading: bool

    constructor (app: AppState)
      ensures this.app == app && coupon == "" && !loading
    {
      this.app := app;
      coupon := "";
      loading := false;
    }

    /** Picking a quantity in an entry's `<select>`. The page shows a
        spinner, and half a second later hands the mapped cart to the parent
        and hides the spinner; only that end state is modelled. */
    method HandleQuantityChange(id: int, quantity: int)
      modifies this, app
      ensures app.cart == QuantityChanged(old(app.cart), id, quantity)
      ensures UniqueIds(old(app.cart)) ==> UniqueIds(app.cart)
      ensures !loading && coupon == old(coupon)
    {
      loading := true;
      var updatedCart := QuantityChanged(app.cart, id, quantity);
      if UniqueIds(app.cart) {
        QuantityChangeKeepsUniqueIds(app.cart, id, quantity);
      }
      app.UpdateCart(updatedCart);
      loading := false;
    }

    method HandleRemoveProduct(id: int)
      modifies app
      ensures app.cart == Removed(old(app.cart), id)
      ensures UniqueIds(old(app.cart)) ==> UniqueIds(app.cart)
    {
      var updatedCart := Removed(app.cart, id);
      if UniqueIds(app.cart) {
        RemovedKeepsUniqueIds(app.cart, id);
      }
      app.UpdateCart(updatedCart);
    }

    /** Typing in the coupon field. */
    method SetCoupon(text: string)
      modifies this
      ensures coupon == text && loading == old(loading)
    {
      coupon := text;
    }

    /** The "apply coupon" button only logs the code: no state changes, so
        neither the cart nor the total can. */
    method HandleApplyCoupon()
      ensures unchanged(this) && unchanged(app)
    {
    }

    /** The page as rendered: an empty cart shows only the notice, whatever
        `loading` says; otherwise every entry in cart order, the coupon text,
        and the total heading, which is the sum of the line amounts unless
        the spinner is up. */
    function Render(): (s: CartScreen)
      reads this, app
      ensures s.EmptyCart? <==> |app.cart| == 0
      ensures s.Filled? ==> s.entries == app.cart && s.coupon == coupon
      ensures s.Filled? ==> (s.total.Some? <==> !loading)
      ensures s.Filled? && s.total.Some? ==> s.total.value == SumOfLines(app.cart)
    {
      if |app.cart| == 0 then EmptyCart
      else
        TotalIsSumOfLines(app.cart);
        Filled(app.cart, coupon, if loading then None else Some(Total(app.cart)))
    }
  }

  /** The left-fold step of the reduce, generalised to any suffix. */
  lemma {:induction false} TotalAppend(a: seq<CartItem>, b: seq<CartItem>)
    ensures Total(a + b) == Total(a) + Total(b)
    decreases |b|
  {
    if |b| == 0 {
      assert a + b == a;
    } else {
      var b' := b[..|b| - 1];
      assert (a + b)[..|a + b| - 1] == a + b';
      TotalAppend(a, b');
    }
  }

  /** A cart of non-negative prices and quantities never has a negative
      total. */
  lemma {:induction false} TotalNonNegative(cart: seq<CartItem>)
    requires forall i :: 0 <= i < |cart| ==> cart[i].product.price >= 0 && cart[i].quantity >= 0
    ensures Total(cart) >= 0
    decreases |cart|
  {
    if |cart| > 0 {
      TotalNonNegative(cart[..|cart| - 1]);
      assert LineAmount(cart[|cart| - 1]) >= 0;
    }
  }

  lemma TotalOne(item: CartItem)
    ensures Total([item]) == LineAmount(item)
  {
    assert [item][..0] == [];
  }

  /** The total of a cart split around entry `k`. */
  lemma TotalAround(cart: seq<CartItem>, k: nat)
    requires k < |cart|
    ensures Total(cart) == Total(cart[..k]) + LineAmount(cart[k]) + Total(cart[k + 1..])
  {
    var front, back := cart[..k] + [cart[k]], cart[k + 1..];
    assert cart == front + back;
    TotalAppend(front, back);
    TotalAppend(cart[..k], [cart[k]]);
    TotalOne(cart[k]);
  }

  /** The sum of the line amounts, taken from the front: an independent
      statement of "sum of price * quantity over all entries". */
  function SumOfLines(cart: seq<CartItem>): int
    decreases |cart|
  {
    if |cart| == 0 then 0 else LineAmount(cart[0]) + SumOfLines(cart[1..])
  }

  lemma {:induction false} TotalIsSumOfLines(cart: seq<CartItem>)
    ensures Total(cart) == SumOfLines(cart)
    ensures cart == [] ==> Total(cart) == 0
    decreases |cart|
  {
    if |cart| > 0 {
      TotalIsSumOfLines(cart[1..]);
      TotalAppend([cart[0]], cart[1..]);
      assert [cart[0]] + cart[1..] == cart;
      assert [cart[0]][..0] == [];
    }
  }

  /** The total reads only prices and requested quantities: two carts that
      agree on those, entry by entry, have the same total whatever their
      names, ids or stock. */
  lemma {:induction false} TotalIgnoresStock(a: seq<CartItem>, b: seq<CartItem>)
    requires |a| == |b|
    requires forall i :: 0 <= i < |a| ==>
               a[i].product.price == b[i].product.price && a[i].quantity == b[i].quantity
    ensures Total(a) == Total(b)
    decreases |a|
  {
    if |a| > 0 {
      TotalIgnoresStock(a[..|a| - 1], b[..|b| - 1]);
    }
  }

  /** A quantity change for an id that is not in the cart gives back the
      same cart. */
  lemma QuantityChangeAbsent(cart: seq<CartItem>, id: int, quantity: int)
    requires !HasId(cart, id)
    ensures QuantityChanged(cart, id, quantity) == cart
  {
  }

  /** A quantity change keeps every id in place, so it keeps them unique. */
  lemma QuantityChangeKeepsUniqueIds(cart: seq<CartItem>, id: int, quantity: int)
    requires UniqueIds(cart)
    ensures UniqueIds(QuantityChanged(cart, id, quantity))
  {
    var r := QuantityChanged(cart, id, quantity);
    assert forall i :: 0 <= i < |r| ==> r[i].product == cart[i].product;
  }

  /** With unique ids, the quantity change touches entry `k` alone. */
  lemma QuantityChangedAt(cart: seq<CartItem>, id: int, quantity: int, k: nat)
    requires UniqueIds(cart) && k < |cart| && cart[k].product.id == id
    ensures var r := QuantityChanged(cart, id, quantity);
      && r[..k] == cart[..k] && r[k + 1..] == cart[k + 1..]
      && r[k] == cart[k].(quantity := quantity)
  {
    var r := QuantityChanged(cart, id, quantity);
    forall i | 0 <= i < |cart| && i != k ensures r[i] == cart[i] {
      if i < k { assert cart[i].product.id != cart[k].product.id; }
      else { assert cart[k].product.id != cart[i].product.id; }
    }
    assert r[..k] == cart[..k];
    assert r[k + 1..] == cart[k + 1..];
  }

  /** With unique ids, changing entry `k`'s quantity swaps its line amount
      in the total for the new one. */
  lemma QuantityChangeSwapsLine(cart: seq<CartItem>, id: int, quantity: int, k: nat)
    requires UniqueIds(cart) && k < |cart| && cart[k].product.id == id
    ensures Total(QuantityChanged(cart, id, quantity))
            == Total(cart) - LineAmount(cart[k]) + LineAmount(cart[k].(quantity := quantity))
  {
    QuantityChangedAt(cart, id, quantity, k);
    TotalAround(cart, k);
    TotalAround(QuantityChanged(cart, id, quantity), k);
  }

  /** With unique ids, changing entry `k`'s quantity moves the total by that
      entry's price times the quantity difference. */
  lemma QuantityChangeTotal(cart: seq<CartItem>, id: int, quantity: int, k: nat)
    requires UniqueIds(cart) && k < |cart| && cart[k].product.id == id
    ensures Total(QuantityChanged(cart, id, quantity))
            == Total(cart) + cart[k].product.price * (quantity - cart[k].quantity)
  {
    QuantityChangeSwapsLine(cart, id, quantity, k);
    LineAmountChange(cart[k], quantity);
  }

  /** Setting an entry's quantity changes its line amount by its price
      times the quantity difference. */
  lemma LineAmountChange(item: CartItem, quantity: int)
    ensures LineAmount(item.(quantity := quantity))
            == LineAmount(item) + item.product.price * (quantity - item.quantity)
  {
    var p := item.product.price;
    assert p * quantity - p * item.quantity == p * (quantity - item.quantity);
  }

  /** Removing keeps the surviving entries in their relative order: it
      distributes over concatenation. */
  lemma {:induction false} RemovedAppend(a: seq<CartItem>, b: seq<CartItem>, id: int)
    ensures Removed(a + b, id) == Removed(a, id) + Removed(b, id)
    decreases |b|
  {
    if |b| == 0 {
      assert a + b == a;
    } else {
      var b' := b[..|b| - 1];
      assert (a + b)[..|a + b| - 1] == a + b';
      RemovedAppend(a, b', id);
    }
  }

  /** Removing an id that no entry carries gives back the same cart. */
  lemma {:induction false} RemoveAbsent(cart: seq<CartItem>, id: int)
    requires !HasId(cart, id)
    ensures Removed(cart, id) == cart
    decreases |cart|
  {
    if |cart| > 0 {
      var c' := cart[..|cart| - 1];
      assert !HasId(c', id) by {
        forall i | 0 <= i < |c'| ensures c'[i].product.id != id { assert c'[i] == cart[i]; }
      }
      RemoveAbsent(c', id);
      assert c' + [cart[|cart| - 1]] == cart;
    }
  }

  /** Removing an absent id is a no-op, and removing twice is removing once. */
  lemma RemoveIdempotent(cart: seq<CartItem>, id: int)
    ensures !HasId(cart, id) ==> Removed(cart, id) == cart
    ensures Removed(Removed(cart, id), id) == Removed(cart, id)
  {
    if !HasId(cart, id) {
      RemoveAbsent(cart, id);
    }
    RemoveAbsent(Removed(cart, id), id);
  }

  /** Removal keeps the cart invariant. */
  lemma {:induction false} RemovedKeepsUniqueIds(cart: seq<CartItem>, id: int)
    requires UniqueIds(cart)
    ensures UniqueIds(Removed(cart, id))
    decreases |cart|
  {
    if |cart| > 0 {
      var c', last := cart[..|cart| - 1], cart[|cart| - 1];
      RemovedKeepsUniqueIds(c', id);
      if last.product.id != id {
        var r' := Removed(c', id);
        var r := r' + [last];
        forall i, j | 0 <= i < j < |r| ensures r[i].product.id != r[j].product.id {
          if j == |r'| {
            assert r[i] in c';
            var m :| 0 <= m < |c'| && c'[m] == r[i];
            assert cart[m].product.id != cart[|cart| - 1].product.id;
          }
        }
      }
    }
  }

  /** With unique ids, removing the id of entry `k` takes out exactly that
      entry, and its line amount out of the total. */
  lemma RemovedEntry(cart: seq<CartItem>, id: int, k: nat)
    requires UniqueIds(cart) && k < |cart| && cart[k].product.id == id
    ensures Removed(cart, id) == cart[..k] + cart[k + 1..]
    ensures Total(Removed(cart, id)) == Total(cart) - LineAmount(cart[k])
  {
    var pre, post := cart[..k], cart[k + 1..];
    assert cart == pre + [cart[k]] + post;
    assert !HasId(pre, id) by {
      forall i | 0 <= i < |pre| ensures pre[i].product.id != id { assert cart[i].product.id != cart[k].product.id; }
    }
    assert !HasId(post, id) by {
      forall i | 0 <= i < |post| ensures post[i].product.id != id { assert cart[k + 1 + i].product.id != cart[k].product.id; }
    }
    RemoveAbsent(pre, id);
    RemoveAbsent(post, id);
    RemovedAppend(pre + [cart[k]], post, id);
    RemovedAppend(pre, [cart[k]], id);
    assert Removed([cart[k]], id) == [];
    TotalAppend(pre + [cart[k]], post);
    TotalAppend(pre, [cart[k]]);
    TotalAppend(pre, post);
    assert [cart[k]][..0] == [];
  }
}
