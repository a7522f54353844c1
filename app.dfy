/** The application shell (src/App.tsx): it owns the shopping cart,
    passes `addToCart` (which merges a product into the cart) to the
    catalogue and details pages, lets the cart page replace the cart
    wholesale, and shows the number of items in the header. Neither page
    calls the `addToCart` it receives, so in the shipped wiring the cart
    only changes through the cart page. */
module App {

  /** A product as the cart sees it; `quantity` is the stock the catalogue
      reported, `price` is in minor currency units. */
  datatype Product = Product(id: int, name: string, price: int, quantity: int)

  /** One cart line: a snapshot of the product and the requested quantity. */
  datatype CartItem = CartItem(product: Product, quantity: int)

  predicate HasId(cart: seq<CartItem>, id: int)
  {
    exists i :: 0 <= i < |cart| && cart[i].product.id == id
  }

  /** The cart invariant: at most one entry per product id. */
  predicate UniqueIds(cart: seq<CartItem>)
  {
    forall i, j :: 0 <= i < j < |cart| ==> cart[i].product.id != cart[j].product.id
  }

  /** Number of entries carrying `id`. */
  function CountId(cart: seq<CartItem>, id: int): (n: nat)
    ensures n <= |cart|
    ensures n == 0 <==> !HasId(cart, id)
    decreases |cart|
  {
    if |cart| == 0 then 0
    else CountId(cart[..|cart| - 1], id) + (if cart[|cart| - 1].product.id == id then 1 else 0)
  }

  /** The header badge: `cart.reduce((total, item) => total + item.quantity, 0)`. */
  function ItemCount(cart: seq<CartItem>): (n: int)
    ensures |cart| == 0 ==> n == 0
    ensures (forall i :: 0 <= i < |cart| ==> cart[i].quantity >= 0) ==> n >= 0
    decreases |cart|
  {
    if |cart| == 0 then 0 else ItemCount(cart[..|cart| - 1]) + cart[|cart| - 1].quantity
  }

  /** `prevCart.map(item => item.product.id === id ? {...item, quantity: item.quantity + q} : item)` */
  function Incremented(cart: seq<CartItem>, id: int, q: int): (r: seq<CartItem>)
    ensures |r| == |cart|
    ensures forall i :: 0 <= i < |cart| ==>
              r[i] == if cart[i].product.id == id then cart[i].(quantity := cart[i].quantity + q) else cart[i]
    decreases |cart|
  {
    if |cart| == 0 then []
    else
      var item := cart[|cart| - 1];
      Incremented(cart[..|cart| - 1], id, q)
        + [if item.product.id == id then item.(quantity := item.quantity + q) else item]
  }

  /** The new cart `addToCart(product, quantity)` computes. */
  function AddedToCart(cart: seq<CartItem>, product: Product, quantity: int): (r: seq<CartItem>)
    ensures HasId(r, product.id)
    ensures |r| == if HasId(cart, product.id) then |cart| else |cart| + 1
    ensures forall i :: 0 <= i < |cart| && cart[i].product.id != product.id ==> r[i] == cart[i]
  {
    if HasId(cart, product.id) then
      var r := Incremented(cart, product.id, quantity);
      assert forall i :: 0 <= i < |cart| ==> r[i].product == cart[i].product;
      r
    else
      var r := cart + [CartItem(product, quantity)];
      assert r[|cart|].product.id == product.id;
      r
  }

  /** The component's state; `cart` is the `useState` value that the
      handlers replace. */
  class AppState {
    var cart: seq<CartItem>

    constructor ()
      ensures cart == []
    {
      cart := [];
    }

    method AddToCart(product: Product, quantity: int)
      modifies this
      ensures cart == AddedToCart(old(cart), product, quantity)
      ensures UniqueIds(old(cart)) ==> UniqueIds(cart)
      ensures UniqueIds(old(cart)) ==> HeaderCount() == old(HeaderCount()) + quantity
    {
      if UniqueIds(cart) {
        AddKeepsUniqueIds(cart, product, quantity);
        AddGrowsItemCount(cart, product, quantity);
      }
      cart := AddedToCart(cart, product, quantity);
    }

    method UpdateCart(updatedCart: seq<CartItem>)
      modifies this
      ensures cart == updatedCart
    {
      cart := updatedCart;
    }

    function HeaderCount(): (n: int)
      reads this
      ensures cart == [] ==> n == 0
      ensures (forall i :: 0 <= i < |cart| ==> cart[i].quantity >= 0) ==> n >= 0
    {
      ItemCount(cart)
    }
  }

  /** Adding an id already present merges into that entry: the length is
      unchanged, the entry keeps its original product snapshot, its quantity
      grows by exactly `quantity`, and no other entry changes. */
  lemma AddExisting(cart: seq<CartItem>, product: Product, quantity: int, k: nat)
    requires k < |cart| && cart[k].product.id == product.id
    ensures var r := AddedToCart(cart, product, quantity);
      && |r| == |cart|
      && r[k].product == cart[k].product
      && r[k].quantity == cart[k].quantity + quantity
      && forall i :: 0 <= i < |cart| && cart[i].product.id != product.id ==> r[i] == cart[i]
  {
  }

  /** Adding an absent id appends `{product, quantity}` as the last entry. */
  lemma AddAbsent(cart: seq<CartItem>, product: Product, quantity: int)
    requires !HasId(cart, product.id)
    ensures var r := AddedToCart(cart, product, quantity);
      && |r| == |cart| + 1
      && r[..|cart|] == cart
      && r[|cart|] == CartItem(product, quantity)
  {
  }

  lemma AddKeepsUniqueIds(cart: seq<CartItem>, product: Product, quantity: int)
    requires UniqueIds(cart)
    ensures UniqueIds(AddedToCart(cart, product, quantity))
    ensures CountId(AddedToCart(cart, product, quantity), product.id) == 1
  {
    var r := AddedToCart(cart, product, quantity);
    if HasId(cart, product.id) {
      assert forall i :: 0 <= i < |r| ==> r[i].product == cart[i].product;
      UniqueCountsOne(cart, product.id);
      CountIdSameIds(cart, r, product.id);
    } else {
      assert r == cart + [CartItem(product, quantity)];
      assert r[..|r| - 1] == cart;
    }
  }

  /** With unique ids, an id that is present occurs exactly once. */
  lemma {:induction false} UniqueCountsOne(cart: seq<CartItem>, id: int)
    requires UniqueIds(cart) && HasId(cart, id)
    ensures CountId(cart, id) == 1
    decreases |cart|
  {
    var c' := cart[..|cart| - 1];
    if cart[|cart| - 1].product.id == id {
      assert !HasId(c', id) by {
        forall i | 0 <= i < |c'| ensures c'[i].product.id != id {
          assert cart[i].product.id != cart[|cart| - 1].product.id;
        }
      }
    } else {
      var k :| 0 <= k < |cart| && cart[k].product.id == id;
      assert c'[k].product.id == id;
      UniqueCountsOne(c', id);
    }
  }

  /** CountId only looks at the product ids. */
  lemma {:induction false} CountIdSameIds(a: seq<CartItem>, b: seq<CartItem>, id: int)
    requires |a| == |b|
    requires forall i :: 0 <= i < |a| ==> a[i].product.id == b[i].product.id
    ensures CountId(a, id) == CountId(b, id)
    decreases |a|
  {
    if |a| > 0 {
      CountIdSameIds(a[..|a| - 1], b[..|b| - 1], id);
    }
  }

  /** The header count of a cart with one more entry at the end. */
  lemma ItemCountSnoc(cart: seq<CartItem>, item: CartItem)
    ensures ItemCount(cart + [item]) == ItemCount(cart) + item.quantity
  {
    assert (cart + [item])[..|cart|] == cart;
  }

  /** Incrementing every entry carrying `id` by `q` adds `q` once per such entry. */
  lemma {:induction false} IncrementedItemCount(cart: seq<CartItem>, id: int, q: int)
    ensures ItemCount(Incremented(cart, id, q)) == ItemCount(cart) + q * CountId(cart, id)
    decreases |cart|
  {
    if |cart| > 0 {
      var c', last := cart[..|cart| - 1], cart[|cart| - 1];
      var bumped := if last.product.id == id then last.(quantity := last.quantity + q) else last;
      IncrementedItemCount(c', id, q);
      ItemCountSnoc(Incremented(c', id, q), bumped);
      CountStep(ItemCount(Incremented(cart, id, q)), ItemCount(Incremented(c', id, q)),
                ItemCount(cart), ItemCount(c'), q, CountId(cart, id), CountId(c', id),
                last.quantity, last.product.id == id);
    }
  }

  /** The arithmetic of one induction step of IncrementedItemCount. */
  lemma CountStep(after: int, after': int, before: int, before': int,
                  q: int, m: int, n: int, lastQ: int, hit: bool)
    requires after' == before' + q * n
    requires after == after' + (if hit then lastQ + q else lastQ)
    requires before == before' + lastQ
    requires m == n + (if hit then 1 else 0)
    ensures after == before + q * m
  {
    if hit {
      assert q * m == q * n + q;
    }
  }

  /** The header count grows by exactly the added quantity. No stock bound
      is enforced: any `quantity` is accepted. */
  lemma AddGrowsItemCount(cart: seq<CartItem>, product: Product, quantity: int)
    requires UniqueIds(cart)
    ensures ItemCount(AddedToCart(cart, product, quantity)) == ItemCount(cart) + quantity
  {
    if HasId(cart, product.id) {
      UniqueCountsOne(cart, product.id);
      IncrementedItemCount(cart, product.id, quantity);
    } else {
      var r := cart + [CartItem(product, quantity)];
      assert r[..|r| - 1] == cart;
    }
  }

  /** Folding `addToCart` over a list of quantities for one product. */
  function AddAll(cart: seq<CartItem>, product: Product, qs: seq<int>): seq<CartItem>
    decreases |qs|
  {
    if |qs| == 0 then cart
    else AddAll(AddedToCart(cart, product, qs[0]), product, qs[1..])
  }

  function Sum(qs: seq<int>): int
    decreases |qs|
  {
    if |qs| == 0 then 0 else qs[0] + Sum(qs[1..])
  }

  /** Any non-empty run of adds of the same product to a cart that does not
      yet hold it yields exactly one entry for that product, appended last,
      whose quantity is the sum of the added quantities. */
  lemma {:induction false} RepeatedAdds(cart: seq<CartItem>, product: Product, qs: seq<int>)
    requires !HasId(cart, product.id) && |qs| > 0
    ensures var r := AddAll(cart, product, qs);
      && |r| == |cart| + 1
      && r[..|cart|] == cart
      && r[|cart|] == CartItem(product, Sum(qs))
      && CountId(r, product.id) == 1
  {
    var c1 := AddedToCart(cart, product, qs[0]);
    assert c1 == cart + [CartItem(product, qs[0])];
    AddsIntoEntry(cart, product, qs[0], qs[1..]);
    assert qs == [qs[0]] + qs[1..];
    var r := AddAll(cart, product, qs);
    assert r[..|r| - 1] == cart;
    assert CountId(cart, product.id) == 0;
  }

  /** Once the product's entry is the last one, further adds only increase it. */
  lemma {:induction false} AddsIntoEntry(cart: seq<CartItem>, product: Product, q0: int, qs: seq<int>)
    requires !HasId(cart, product.id)
    ensures AddAll(cart + [CartItem(product, q0)], product, qs) == cart + [CartItem(product, q0 + Sum(qs))]
    decreases |qs|
  {
    if |qs| > 0 {
      var c := cart + [CartItem(product, q0)];
      assert c[|cart|].product.id == product.id;
      var c1 := AddedToCart(c, product, qs[0]);
      assert c1 == cart + [CartItem(product, q0 + qs[0])];
      AddsIntoEntry(cart, product, q0 + qs[0], qs[1..]);
    }
  }

  /** With unique ids, adding a product whose id sits at entry `k` raises
      that entry alone, whatever product snapshot it holds. */
  lemma AddExistingAt(cart: seq<CartItem>, product: Product, q: int, k: nat)
    requires UniqueIds(cart) && k < |cart| && cart[k].product.id == product.id
    ensures AddedToCart(cart, product, q) == cart[k := cart[k].(quantity := cart[k].quantity + q)]
  {
    var r := AddedToCart(cart, product, q);
    assert HasId(cart, product.id);
    forall i | 0 <= i < |cart| && i != k ensures r[i] == cart[i] {
      if i < k { assert cart[i].product.id != cart[k].product.id; }
      else { assert cart[k].product.id != cart[i].product.id; }
    }
  }

  /** Once the product's id has an entry, at any position, every further
      add only increases that entry: a run of adds leaves the cart as it
      was except that entry `k` gains the sum of the added quantities. */
  lemma {:induction false} AddsIntoExisting(cart: seq<CartItem>, product: Product, qs: seq<int>, k: nat)
    requires UniqueIds(cart) && k < |cart| && cart[k].product.id == product.id
    ensures AddAll(cart, product, qs) == cart[k := cart[k].(quantity := cart[k].quantity + Sum(qs))]
    decreases |qs|
  {
    if |qs| == 0 {
      assert cart[k].(quantity := cart[k].quantity + 0) == cart[k];
    } else {
      var c1 := AddedToCart(cart, product, qs[0]);
      assert c1 == cart[k := cart[k].(quantity := cart[k].quantity + qs[0])]
          && UniqueIds(c1) by {
        AddExistingAt(cart, product, qs[0], k);
        AddKeepsUniqueIds(cart, product, qs[0]);
      }
      AddsIntoExisting(c1, product, qs[1..], k);
      RaiseTwice(cart, k, qs[0], Sum(qs[1..]));
      assert AddAll(cart, product, qs) == AddAll(c1, product, qs[1..]);
      assert Sum(qs) == qs[0] + Sum(qs[1..]);
    }
  }

  /** Raising entry `k` by `a` and then by `b` raises it by `a + b`. */
  lemma RaiseTwice(cart: seq<CartItem>, k: nat, a: int, b: int)
    requires k < |cart|
    ensures var c1 := cart[k := cart[k].(quantity := cart[k].quantity + a)];
      c1[k := c1[k].(quantity := c1[k].quantity + b)]
        == cart[k := cart[k].(quantity := cart[k].quantity + (a + b))]
  {
  }
}
