/** The catalogue page (src/routes/product-list/ProductList.tsx): a sidebar
    of categories that toggle a filter, two sort buttons, and the product
    grid fetched for the selected categories. */
module ProductList {
  import opened Shared
  import Decimal

  datatype Category = Category(id: int, name: string)

  datatype Product = Product(id: int, name: string, price: int, quantity: int, categories: seq<Category>)

  // ---------------------------------------------------------------------
  // The selected categories: a JavaScript `Set<number>`. A Set iterates in
  // insertion order, and `Array.from` hands that order to the URL, so it is
  // modelled as a duplicate-free sequence in insertion order.

  /** Position of `x` in `s`. */
  function IndexOf(s: seq<int>, x: int): (i: nat)
    requires x in s
    ensures i < |s| && s[i] == x
    ensures forall j :: 0 <= j < i ==> s[j] != x
    decreases |s|
  {
    if s[0] == x then 0 else 1 + IndexOf(s[1..], x)
  }

  /** `set.delete(x)` */
  function SetDelete(s: seq<int>, x: int): (r: seq<int>)
    ensures |r| == if x in s then |s| - 1 else |s|
    ensures forall y :: y != x ==> (y in r <==> y in s)
    ensures NoDuplicates(s) ==> x !in r && NoDuplicates(r)
    ensures NoDuplicates(s) ==> r == Without(s, x)
  {
    if x in s then
      var i := IndexOf(s, x);
      var r := s[..i] + s[i + 1..];
      DeleteAtOthers(s, i);
      assert NoDuplicates(s) ==> x !in r && NoDuplicates(r) && r == Without(s, x) by {
        if NoDuplicates(s) {
          DeleteAtMembers(s, i);
          DeleteAtNoDuplicates(s, i);
          DeleteAtIsWithout(s, i);
        }
      }
      r
    else s
  }

  /** `set.add(x)`: a new element goes last. */
  function SetAdd(s: seq<int>, x: int): (r: seq<int>)
    ensures x in r
    ensures forall y :: y in r <==> y in s || y == x
    ensures x in s ==> r == s
    ensures x !in s ==> |r| == |s| + 1 && r[..|s|] == s && r[|s|] == x
    ensures NoDuplicates(s) ==> NoDuplicates(r)
  {
    if x in s then s
    else
      assert NoDuplicates(s) ==> NoDuplicates(s + [x]) by {
        if NoDuplicates(s) { AddNoDuplicates(s, x); }
      }
      s + [x]
  }

  /** `toggleCategory`: copy the set, delete the id if it is there, add it
      otherwise. */
  function SetToggled(s: seq<int>, id: int): (r: seq<int>)
    ensures forall y :: y != id ==> (y in r <==> y in s)
    ensures NoDuplicates(s) ==> NoDuplicates(r) && (id in r <==> id !in s)
    ensures NoDuplicates(s) && id in s ==> r == Without(s, id)
    ensures id !in s ==> r == s + [id]
  {
    if id in s then SetDelete(s, id) else SetAdd(s, id)
  }

  /** On a duplicate-free sequence, deleting the slot of a value is the
      same as filtering that value out: the other values keep their order. */
  lemma DeleteAtIsWithout(s: seq<int>, i: nat)
    requires i < |s| && NoDuplicates(s)
    ensures s[..i] + s[i + 1..] == Without(s, s[i])
  {
    var x, front, back := s[i], s[..i], s[i + 1..];
    assert s == front + [x] + back;
    assert x !in front && x !in back by {
      forall k | 0 <= k < |front| ensures front[k] != x { assert s[k] != s[i]; }
      forall k | 0 <= k < |back| ensures back[k] != x { assert s[i + 1 + k] != s[i]; }
    }
    WithoutAppend(front + [x], back, x);
    WithoutAppendOne(front, x, x);
  }

  /** Deleting position `i` keeps every value not stored there. */
  lemma DeleteAtOthers(s: seq<int>, i: nat)
    requires i < |s|
    ensures forall y :: y != s[i] ==> (y in s[..i] + s[i + 1..] <==> y in s)
  {
    var r := s[..i] + s[i + 1..];
    assert s == s[..i] + [s[i]] + s[i + 1..];
    forall y | y != s[i] && y in s ensures y in r {
      var k :| 0 <= k < |s| && s[k] == y;
      if k < i { assert r[k] == y; } else { assert r[k - 1] == y; }
    }
  }

  /** Deleting position `i` of a duplicate-free sequence removes exactly
      the value stored there. */
  lemma DeleteAtMembers(s: seq<int>, i: nat)
    requires i < |s| && NoDuplicates(s)
    ensures forall y :: y in s[..i] + s[i + 1..] <==> y in s && y != s[i]
  {
    var r := s[..i] + s[i + 1..];
    assert s == s[..i] + [s[i]] + s[i + 1..];
    forall y ensures y in r <==> y in s && y != s[i] {
      if y in r {
        var k :| 0 <= k < |r| && r[k] == y;
        if k < i { assert s[k] == y && s[k] != s[i]; }
        else { assert s[k + 1] == y && s[i] != s[k + 1]; }
      }
    }
  }

  lemma DeleteAtNoDuplicates(s: seq<int>, i: nat)
    requires i < |s| && NoDuplicates(s)
    ensures NoDuplicates(s[..i] + s[i + 1..])
  {
    var r := s[..i] + s[i + 1..];
    forall a, b | 0 <= a < b < |r| ensures r[a] != r[b] {
      var a', b' := if a < i then a else a + 1, if b < i then b else b + 1;
      assert r[a] == s[a'] && r[b] == s[b'];
    }
  }

  lemma AddNoDuplicates(s: seq<int>, x: int)
    requires NoDuplicates(s) && x !in s
    ensures NoDuplicates(s + [x])
  {
    var r := s + [x];
    forall a, b | 0 <= a < b < |r| ensures r[a] != r[b] {
      assert r[a] == s[a];
      if b < |s| { assert r[b] == s[b]; }
    }
  }

  /** Toggling the same id twice gives back the same set of ids; if the id
      was absent it gives back exactly the same sequence. */
  lemma ToggleTwice(s: seq<int>, id: int)
    requires NoDuplicates(s)
    ensures forall y :: y in SetToggled(SetToggled(s, id), id) <==> y in s
    ensures id !in s ==> SetToggled(SetToggled(s, id), id) == s
    ensures id in s ==> SetToggled(SetToggled(s, id), id) == Without(s, id) + [id]
  {
    if id !in s {
      var t := s + [id];
      assert forall j :: 0 <= j < |s| ==> t[j] == s[j];
      assert IndexOf(t, id) == |s|;
      assert t[..|s|] + t[|s| + 1..] == s;
    }
  }

  // ---------------------------------------------------------------------
  // The request URL built by `fetchProducts`.

  const ProductsBase: string := "http://localhost:8080/products"
  const CategoryQuery: string := "?categoryIds="

  function ProductsUrl(categoryIds: seq<int>): (url: string)
    ensures |url| >= |ProductsBase| && url[..|ProductsBase|] == ProductsBase
    ensures |url| == |ProductsBase| <==> |categoryIds| == 0
  {
    if |categoryIds| > 0 then ProductsBase + CategoryQuery + Decimal.Join(categoryIds)
    else ProductsBase
  }

  /** With no category the URL is the bare base. Otherwise it is the base,
      the query key and a comma list with no comma at either end, which
      reads back as exactly the selected ids in their order. */
  lemma UrlShape(categoryIds: seq<int>)
    ensures |categoryIds| == 0 ==> ProductsUrl(categoryIds) == ProductsBase
    ensures |categoryIds| > 0 ==>
      var url := ProductsUrl(categoryIds);
      var n := |ProductsBase + CategoryQuery|;
      && |url| > n
      && url[..n] == ProductsBase + CategoryQuery
      && url[n] != ',' && url[|url| - 1] != ','
      && Decimal.ParseIds(Decimal.Split(url[n..])) == Some(categoryIds)
  {
    if |categoryIds| > 0 {
      var url := ProductsUrl(categoryIds);
      var n := |ProductsBase + CategoryQuery|;
      assert url[n..] == Decimal.Join(categoryIds);
      Decimal.JoinRoundTrip(categoryIds);
    }
  }

  // ---------------------------------------------------------------------
  // Sorting. `Array.prototype.sort` is a stable sort by the comparator;
  // the model is an insertion sort that places each element before the
  // first one it does not sort after.

  predicate SortedBy(s: seq<Product>, le: (Product, Product) -> bool)
  {
    forall i, j :: 0 <= i < j < |s| ==> le(s[i], s[j])
  }

  /** The comparator induces a total preorder. */
  ghost predicate TotalPreorder(le: (Product, Product) -> bool)
  {
    && (forall a, b :: le(a, b) || le(b, a))
    && (forall a, b, c :: le(a, b) && le(b, c) ==> le(a, c))
  }

  function Insert(x: Product, s: seq<Product>, le: (Product, Product) -> bool): (r: seq<Product>)
    ensures multiset(r) == multiset(s) + multiset{x}
    decreases |s|
  {
    if |s| == 0 then [x]
    else if le(x, s[0]) then [x] + s
    else
      assert s == [s[0]] + s[1..];
      [s[0]] + Insert(x, s[1..], le)
  }

  function SortBy(s: seq<Product>, le: (Product, Product) -> bool): (r: seq<Product>)
    ensures multiset(r) == multiset(s)
    decreases |s|
  {
    if |s| == 0 then []
    else
      assert s == [s[0]] + s[1..];
      Insert(s[0], SortBy(s[1..], le), le)
  }

  /** What an insertion holds: the new element and the old ones. */
  lemma InsertMembers(x: Product, s: seq<Product>, le: (Product, Product) -> bool)
    ensures forall y :: y in Insert(x, s, le) <==> y == x || y in s
  {
    var r := Insert(x, s, le);
    forall y ensures y in r <==> y == x || y in s {
      assert y in r <==> y in multiset(r);
      assert y in s <==> y in multiset(s);
    }
  }

  /** The head of a sorted sequence is below every later element. */
  lemma HeadBelowRest(s: seq<Product>, le: (Product, Product) -> bool)
    requires |s| > 0 && SortedBy(s, le)
    ensures forall y :: y in s[1..] ==> le(s[0], y)
  {
    forall y | y in s[1..] ensures le(s[0], y) {
      var k :| 0 <= k < |s[1..]| && s[1..][k] == y;
      assert s[k + 1] == y;
    }
  }

  /** An element below every element of a sorted sequence can go first. */
  lemma ConsSorted(h: Product, t: seq<Product>, le: (Product, Product) -> bool)
    requires SortedBy(t, le) && forall y :: y in t ==> le(h, y)
    ensures SortedBy([h] + t, le)
  {
    var r := [h] + t;
    forall i, j | 0 <= i < j < |r| ensures le(r[i], r[j]) {
      if i == 0 { assert r[j] in t; } else { assert r[i] == t[i - 1] && r[j] == t[j - 1]; }
    }
  }

  lemma {:induction false} InsertSorted(x: Product, s: seq<Product>, le: (Product, Product) -> bool)
    requires TotalPreorder(le) && SortedBy(s, le)
    ensures SortedBy(Insert(x, s, le), le)
    decreases |s|
  {
    if |s| == 0 {
      assert Insert(x, s, le) == [x];
    } else if le(x, s[0]) {
      HeadBelowRest(s, le);
      forall y | y in s ensures le(x, y) {
        if y != s[0] { assert y in s[1..] by { assert s == [s[0]] + s[1..]; } }
      }
      ConsSorted(x, s, le);
    } else {
      InsertSorted(x, s[1..], le);
      HeadBelowRest(s, le);
      InsertMembers(x, s[1..], le);
      ConsSorted(s[0], Insert(x, s[1..], le), le);
    }
  }

  lemma {:induction false} SortSorted(s: seq<Product>, le: (Product, Product) -> bool)
    requires TotalPreorder(le)
    ensures SortedBy(SortBy(s, le), le)
    decreases |s|
  {
    if |s| > 0 {
      SortSorted(s[1..], le);
      InsertSorted(s[0], SortBy(s[1..], le), le);
    }
  }

  /** The comparator `(a, b) => a.price - b.price`, read as "a may stay
      before b": the difference is not positive. */
  function PriceLe(a: Product, b: Product): (le: bool)
    ensures le <==> a.price - b.price <= 0
  {
    a.price <= b.price
  }

  /** `handleSortChange(option)`: "name" sorts by the collation `collate`
      (`localeCompare`, outside the model: `collate(a, b)` stands for
      `a.localeCompare(b) <= 0`), "price" by ascending price, and any other
      option keeps the list as it was. */
  function SortedFor(option: string, products: seq<Product>, collate: (string, string) -> bool): (r: seq<Product>)
    ensures multiset(r) == multiset(products)
  {
    if option == "name" then SortBy(products, (a: Product, b: Product) => collate(a.name, b.name))
    else if option == "price" then SortBy(products, PriceLe)
    else products
  }

  /** Sorting by price yields a permutation in non-decreasing price order. */
  lemma PriceSort(products: seq<Product>, collate: (string, string) -> bool)
    ensures var r := SortedFor("price", products, collate);
      && multiset(r) == multiset(products)
      && forall i, j :: 0 <= i < j < |r| ==> r[i].price <= r[j].price
  {
    SortSorted(products, PriceLe);
  }

  /** Sorting by name yields a permutation ordered by the collation,
      whenever the collation is a total preorder. */
  lemma NameSort(products: seq<Product>, collate: (string, string) -> bool)
    requires forall a, b :: collate(a, b) || collate(b, a)
    requires forall a, b, c :: collate(a, b) && collate(b, c) ==> collate(a, c)
    ensures var r := SortedFor("name", products, collate);
      && multiset(r) == multiset(products)
      && forall i, j :: 0 <= i < j < |r| ==> collate(r[i].name, r[j].name)
  {
    var le := (a: Product, b: Product) => collate(a.name, b.name);
    forall a: Product, b: Product ensures le(a, b) || le(b, a) {
      assert collate(a.name, b.name) || collate(b.name, a.name);
    }
    forall a: Product, b: Product, c: Product | le(a, b) && le(b, c) ensures le(a, c) {
      assert collate(a.name, b.name) && collate(b.name, c.name);
    }
    SortSorted(products, le);
  }

  /** No option changes the length or the multiset of products, and an
      option other than "name" or "price" changes nothing. */
  lemma SortKeepsProducts(option: string, products: seq<Product>, collate: (string, string) -> bool)
    ensures multiset(SortedFor(option, products, collate)) == multiset(products)
    ensures |SortedFor(option, products, collate)| == |products|
    ensures option != "name" && option != "price" ==> SortedFor(option, products, collate) == products
  {
    var r := SortedFor(option, products, collate);
    assert |r| == |multiset(r)|;
  }

  // ---------------------------------------------------------------------

  class ProductListPage {
    var products: seq<Product>
    var categories: seq<Category>
    var selectedCategories: seq<int>
    var sortOption: string
    var loading: bool
    var error: Option<string>

    ghost predicate Valid()
      reads this
    {
      NoDuplicates(selectedCategories)
    }

    constructor ()
      ensures Valid()
      ensures products == [] && categories == [] && selectedCategories == []
      ensures sortOption == "" && loading && error == None
    {
      products, categories, selectedCategories := [], [], [];
      sortOption, loading, error := "", true, None;
    }

    /** The URL `fetchProducts(Array.from(selectedCategories))` requests. */
    function RequestUrl(): (url: string)
      reads this
      ensures |selectedCategories| == 0 ==> url == ProductsBase
      ensures |selectedCategories| > 0 ==>
        var n := |ProductsBase + CategoryQuery|;
        |url| > n && Decimal.ParseIds(Decimal.Split(url[n..])) == Some(selectedCategories)
    {
      UrlShape(selectedCategories);
      ProductsUrl(selectedCategories)
    }

    /** The start of `fetchProducts`, which the effect runs on mount and
        after every change of the selection: the spinner goes on and the
        request for the current selection goes out. */
    method FetchStarted() returns (url: string)
      modifies this
      ensures Valid() <==> old(Valid())
      ensures loading
      ensures url == ProductsUrl(selectedCategories)
      ensures products == old(products) && categories == old(categories)
      ensures selectedCategories == old(selectedCategories)
      ensures sortOption == old(sortOption) && error == old(error)
    {
      loading := true;
      url := ProductsUrl(selectedCategories);
    }

    method ToggleCategory(categoryId: int)
      requires Valid()
      modifies this
      ensures Valid()
      ensures selectedCategories == SetToggled(old(selectedCategories), categoryId)
      ensures products == old(products) && categories == old(categories)
      ensures sortOption == old(sortOption) && loading == old(loading) && error == old(error)
    {
      selectedCategories := SetToggled(selectedCategories, categoryId);
    }

    method HandleSortChange(option: string, collate: (string, string) -> bool)
      modifies this
      ensures Valid() <==> old(Valid())
      ensures sortOption == option
      ensures products == SortedFor(option, old(products), collate)
      ensures selectedCategories == old(selectedCategories) && categories == old(categories)
      ensures loading == old(loading) && error == old(error)
    {
      var sorted := SortedFor(option, products, collate);
      sortOption, products := option, sorted;
    }

    /** The end of `fetchProducts`: the products on success, an error
        message otherwise, and `loading` off either way. */
    method ProductsFetched(response: Response, data: seq<Product>)
      modifies this
      ensures Valid() <==> old(Valid())
      ensures !loading
      ensures response.Ok? ==> products == data && error == old(error)
      ensures response.NotOk? ==> products == old(products) && error == Some("Failed to fetch products")
      ensures response.Failed? ==> products == old(products) && error == Some(response.message)
      ensures selectedCategories == old(selectedCategories) && categories == old(categories)
      ensures sortOption == old(sortOption)
    {
      match response {
        case Ok => products := data;
        case NotOk => error := Some("Failed to fetch products");
        case Failed(message) => error := Some(message);
      }
      loading := false;
    }

    /** The end of `fetchCategories`. */
    method CategoriesFetched(response: Response, data: seq<Category>)
      modifies this
      ensures Valid() <==> old(Valid())
      ensures response.Ok? ==> categories == data && error == old(error)
      ensures response.NotOk? ==> categories == old(categories) && error == Some("Failed to fetch categories")
      ensures response.Failed? ==> categories == old(categories) && error == Some(response.message)
      ensures products == old(products) && selectedCategories == old(selectedCategories)
      ensures sortOption == old(sortOption) && loading == old(loading)
    {
      match response {
        case Ok => categories := data;
        case NotOk => error := Some("Failed to fetch categories");
        case Failed(message) => error := Some(message);
      }
    }

    /** The grid renders the products only when not loading and no error
        is shown. */
    function ShownProducts(): (r: Option<seq<Product>>)
      reads this
      ensures r.Some? <==> !loading && !Shown(error)
      ensures r.Some? ==> r.value == products
    {
      if !loading && !Shown(error) then Some(products) else None
    }
  }
}
