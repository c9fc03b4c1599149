/** The admin's add-product form: six checks in a fixed order, the product
  * stored under a fresh key, and the form reset. */
module AddProduct {
  import opened Common
  import opened Model
  import opened NumberText

  const NameEmpty := "Name must not be empty"
  const DescriptionEmpty := "Description must not be empty"
  const PriceEmpty := "Price must not be empty"
  const PriceNotNumber := "Price must be a valid number"
  const PriceNotPositive := "Price must be greater than zero"
  const ImageUrlEmpty := "Image URL must not be empty"
  const BrandEmpty := "Brand must not be empty"
  const CategoryMissing := "Category must be selected"

  /** `validatePrice`, shared by both product forms: empty, not a number,
    * not above zero. */
  function PriceProblem(price: string): (r: Option<string>)
    ensures r.None? <==> ToDoubleOrNull(price).Some? && ToDoubleOrNull(price).value > 0.0
    ensures price == "" ==> r == Some(PriceEmpty)
    ensures price != "" && ToDoubleOrNull(price).None? ==> r == Some(PriceNotNumber)
    ensures ToDoubleOrNull(price).Some? && ToDoubleOrNull(price).value <= 0.0 ==> r == Some(PriceNotPositive)
  {
    if price == "" then Some(PriceEmpty)
    else if ToDoubleOrNull(price).None? then Some(PriceNotNumber)
    else if ToDoubleOrNull(price).value <= 0.0 then Some(PriceNotPositive)
    else None
  }

  /** A price typed with a minus sign never passes, and a whole number passes
    * exactly when it is not zero. */
  lemma PriceProblemSigns(price: string)
    ensures price != "" && price[0] == '-' ==> PriceProblem(price).Some?
    ensures AllDigits(price) && price != "" ==> (PriceProblem(price).None? <==> DigitsValue(price) > 0)
  {
    if AllDigits(price) && price != "" {
      DigitsAsDouble(price);
    }
  }

  datatype AddProductUi = AddProductUi(
    name: string,
    description: string,
    price: string,
    imageUrl: string,
    brand: string,
    category: string,
    isLoading: bool,
    errorMessage: Option<string>,
    isSuccess: bool,
    selectedCategory: string)

  const InitialAddProductUi := AddProductUi("", "", "", "", "", "unknown", false, None, false, "")

  /** The message the first failing check sets, or None when all pass: name,
    * description, price, image, brand, then the selected category (the
    * `category` field is never checked). */
  function AddProblem(u: AddProductUi): (r: Option<string>)
    ensures r.None? <==> (u.name != "" && u.description != "" && PriceProblem(u.price).None?
                          && u.imageUrl != "" && u.brand != "" && u.selectedCategory != "")
    ensures u.name == "" ==> r == Some(NameEmpty)
    ensures u.name != "" && u.description == "" ==> r == Some(DescriptionEmpty)
    ensures u.name != "" && u.description != "" ==>
      (PriceProblem(u.price).Some? ==> r == PriceProblem(u.price))
    ensures u.name != "" && u.description != "" && PriceProblem(u.price).None? ==>
      && (u.imageUrl == "" ==> r == Some(ImageUrlEmpty))
      && (u.imageUrl != "" && u.brand == "" ==> r == Some(BrandEmpty))
      && (u.imageUrl != "" && u.brand != "" && u.selectedCategory == "" ==> r == Some(CategoryMissing))
  {
    if u.name == "" then Some(NameEmpty)
    else if u.description == "" then Some(DescriptionEmpty)
    else if PriceProblem(u.price).Some? then PriceProblem(u.price)
    else if u.imageUrl == "" then Some(ImageUrlEmpty)
    else if u.brand == "" then Some(BrandEmpty)
    else if u.selectedCategory == "" then Some(CategoryMissing)
    else None
  }

  /** The product `addProduct` builds from a form that passed, under `id`. */
  function NewProduct(u: AddProductUi, id: string): (p: Product)
    requires AddProblem(u).None?
    ensures p.id == id && p.name == u.name && p.description == u.description && p.imageUrl == u.imageUrl
    ensures p.brand == u.brand && p.category == Some(u.selectedCategory)
    ensures Some(p.price) == ToDoubleOrNull(u.price) && p.price > 0.0
    ensures p.rating == 0 && p.reviewCount == 0 && p.stock == 0 && !p.isFavorite && p.selectedSize.None?
  {
    Product(id, u.name, u.brand, u.description, ToDoubleOrNull(u.price).value, None, 0, 0, 0, u.imageUrl,
            Some(u.selectedCategory), false)
  }

  /** The form after a successful add: every text field empty. */
  function ClearedForm(u: AddProductUi): (r: AddProductUi)
  {
    u.(isLoading := false, isSuccess := true, name := "", description := "", price := "", imageUrl := "",
       brand := "", category := "", selectedCategory := "")
  }

  /** A cleared form fails the first check again, so a second press of the
    * button cannot add the same product twice. */
  lemma ClearedFormRefused(u: AddProductUi)
    ensures AddProblem(ClearedForm(u)) == Some(NameEmpty)
  {
  }

  class AddProductViewModel {
    var ui: AddProductUi
    /** The `products` node, by key. */
    var products: map<string, Product>

    constructor(products: map<string, Product>)
      ensures ui == InitialAddProductUi && this.products == products
    {
      ui := InitialAddProductUi;
      this.products := products;
    }

    method OnNameChange(name: string)
      modifies this
      ensures ui == old(ui).(name := name) && products == old(products)
    {
      ui := ui.(name := name);
    }

    method OnDescriptionChange(description: string)
      modifies this
      ensures ui == old(ui).(description := description) && products == old(products)
    {
      ui := ui.(description := description);
    }

    method OnSelectedCategoryChange(selectedCategory: string)
      modifies this
      ensures ui == old(ui).(selectedCategory := selectedCategory) && products == old(products)
    {
      ui := ui.(selectedCategory := selectedCategory);
    }

    method OnPriceChange(price: string)
      modifies this
      ensures ui == old(ui).(price := price) && products == old(products)
    {
      ui := ui.(price := price);
    }

    method OnImageUrlChange(imageUrl: string)
      modifies this
      ensures ui == old(ui).(imageUrl := imageUrl) && products == old(products)
    {
      ui := ui.(imageUrl := imageUrl);
    }

    method OnBrandChange(brand: string)
      modifies this
      ensures ui == old(ui).(brand := brand) && products == old(products)
    {
      ui := ui.(brand := brand);
    }

    /** `addProduct`: a failing check only sets its message. Otherwise the
      * product is written under the key `push()` gave (`newKey`); the write
      * either succeeds, and the form is cleared, or fails with `failure`
      * (an exception's message, possibly null). */
    method AddProduct(newKey: string, failure: Option<Option<string>>)
      modifies this
      ensures AddProblem(old(ui)).Some? ==>
        ui == old(ui).(errorMessage := AddProblem(old(ui))) && products == old(products)
      ensures AddProblem(old(ui)).None? && failure.None? ==>
        ui == ClearedForm(old(ui)).(errorMessage := None)
        && products == old(products)[newKey := NewProduct(old(ui), newKey)]
      ensures AddProblem(old(ui)).None? && failure.Some? ==>
        ui == old(ui).(isLoading := false, errorMessage := Some(failure.value.GetOr("Unknown error occurred")))
        && products == old(products)
    {
      var problem := AddProblem(ui);
      if problem.Some? {
        ui := ui.(errorMessage := problem);
        return;
      }
      ui := ui.(isLoading := true, errorMessage := None);
      var product := NewProduct(ui, newKey);
      if failure.Some? {
        ui := ui.(isLoading := false, errorMessage := Some(failure.value.GetOr("Unknown error occurred")));
        return;
      }
      products := products[newKey := product];
      ui := ClearedForm(ui);
    }
  }
}
