/** The admin "new product" form (src/routes/create-product/CreateProduct.tsx):
    text and number fields, a checkbox per category that toggles the id in
    an ordered list, and a submit that posts the product with its
    categories. */
module CreateProduct {
  import opened Shared

  datatype Category = Category(id: int, name: string)

  /** `{ id }`, one element of the request's `categories`. */
  datatype CategoryRef = CategoryRef(id: int)

  /** The JSON body of the POST request. */
  datatype ProductRequest = ProductRequest(
    name: string, description: string, price: int, quantity: int, categories: seq<CategoryRef>)

  /** `handleCategoryChange`: `prev.includes(id) ? prev.filter(x => x !== id) : [...prev, id]` */
  function CategoryToggled(prev: seq<int>, categoryId: int): (r: seq<int>)
    ensures categoryId in r <==> categoryId !in prev
    ensures forall y :: y != categoryId ==> (y in r <==> y in prev)
  {
    if categoryId in prev then Without(prev, categoryId) else prev + [categoryId]
  }

  /** An absent id is appended at the end; a present id loses every one of
      its occurrences. */
  lemma ToggleBranches(prev: seq<int>, categoryId: int)
    ensures categoryId !in prev ==>
              CategoryToggled(prev, categoryId) == prev + [categoryId]
              && |CategoryToggled(prev, categoryId)| == |prev| + 1
    ensures categoryId in prev ==> categoryId !in CategoryToggled(prev, categoryId)
  {
  }

  /** Under either branch the other ids keep their relative order: taking
      the toggled id out of the result gives the same list as taking it out
      of the input. */
  lemma ToggleKeepsOthers(prev: seq<int>, categoryId: int)
    ensures Without(CategoryToggled(prev, categoryId), categoryId) == Without(prev, categoryId)
  {
    if categoryId !in prev {
      WithoutAppendOne(prev, categoryId, categoryId);
    }
  }

  lemma ToggleKeepsNoDuplicates(prev: seq<int>, categoryId: int)
    requires NoDuplicates(prev)
    ensures NoDuplicates(CategoryToggled(prev, categoryId))
  {
    if categoryId in prev {
      WithoutKeepsNoDuplicates(prev, categoryId);
    }
  }

  /** Toggling an absent id twice restores the list. Toggling a present id
      twice keeps the same ids but moves that one to the end. */
  lemma ToggleTwice(prev: seq<int>, categoryId: int)
    ensures categoryId !in prev ==>
              CategoryToggled(CategoryToggled(prev, categoryId), categoryId) == prev
    ensures categoryId in prev ==>
              CategoryToggled(CategoryToggled(prev, categoryId), categoryId)
              == Without(prev, categoryId) + [categoryId]
  {
    if categoryId !in prev {
      WithoutAppendOne(prev, categoryId, categoryId);
    }
  }

  /** `selectedCategories.map(id => ({ id }))` */
  function CategoryRefs(ids: seq<int>): (r: seq<CategoryRef>)
    ensures |r| == |ids|
    ensures forall i :: 0 <= i < |ids| ==> r[i].id == ids[i]
    decreases |ids|
  {
    if |ids| == 0 then [] else [CategoryRef(ids[0])] + CategoryRefs(ids[1..])
  }

  class CreateProductForm {
    var name: string
    var description: string
    var price: int
    var quantity: int
    var categories: seq<Category>
    var selectedCategories: seq<int>
    var error: Option<string>

    constructor ()
      ensures name == "" && description == "" && price == 0 && quantity == 0
      ensures categories == [] && selectedCategories == [] && error == None
    {
      name, description, price, quantity := "", "", 0, 0;
      categories, selectedCategories, error := [], [], None;
    }

    method HandleCategoryChange(categoryId: int)
      modifies this
      ensures selectedCategories == CategoryToggled(old(selectedCategories), categoryId)
      ensures NoDuplicates(old(selectedCategories)) ==> NoDuplicates(selectedCategories)
      ensures name == old(name) && description == old(description)
      ensures price == old(price) && quantity == old(quantity)
      ensures categories == old(categories) && error == old(error)
    {
      if NoDuplicates(selectedCategories) {
        ToggleKeepsNoDuplicates(selectedCategories, categoryId);
      }
      selectedCategories := CategoryToggled(selectedCategories, categoryId);
    }

    /** The body `handleCreateProduct` posts. */
    function Request(): (req: ProductRequest)
      reads this
      ensures req.name == name && req.description == description
      ensures req.price == price && req.quantity == quantity
      ensures |req.categories| == |selectedCategories|
      ensures forall i :: 0 <= i < |selectedCategories| ==> req.categories[i].id == selectedCategories[i]
    {
      ProductRequest(name, description, price, quantity, CategoryRefs(selectedCategories))
    }

    /** The outcome of the POST: on success the page alerts and navigates
        away (outside the model) and no field changes; a non-2xx response
        sets the fixed message; a thrown error sets its own message. */
    method HandleCreateProduct(response: Response)
      modifies this
      ensures response.Ok? ==> error == old(error)
      ensures response.NotOk? ==> error == Some("Nie udało się utworzyć produktu.")
      ensures response.Failed? ==> error == Some(response.message)
      ensures name == old(name) && description == old(description)
      ensures price == old(price) && quantity == old(quantity)
      ensures categories == old(categories) && selectedCategories == old(selectedCategories)
    {
      match response {
        case Ok =>
        case NotOk => error := Some("Nie udało się utworzyć produktu.");
        case Failed(message) => error := Some(message);
      }
    }

    /** The end of `fetchCategories`. */
    method CategoriesFetched(response: Response, data: seq<Category>)
      modifies this
      ensures response.Ok? ==> categories == data && error == old(error)
      ensures response.NotOk? ==> categories == old(categories) && error == Some("Failed to fetch categories")
      ensures response.Failed? ==> categories == old(categories) && error == Some(response.message)
      ensures name == old(name) && description == old(description)
      ensures price == old(price) && quantity == old(quantity)
      ensures selectedCategories == old(selectedCategories)
    {
      match response {
        case Ok => categories := data;
        case NotOk => error := Some("Failed to fetch categories");
        case Failed(message) => error := Some(message);
      }
    }
  }
}
