/** The admin's edit-product form: loading a product into text fields, the
  * digits-only stock field, seven checks in a fixed order, and the product
  * written back under its id. */
module EditProduct {
  import opened Common
  import opened Snapshot
  import opened Model
  import opened NumberText
  import AddProduct

  const StockEmpty := "Stock must not be empty"
  const StockNotNumber := "Stock must be a valid number"
  const StockNegative := "Stock cannot be negative"

  /** `validateStock`: empty, not a 32-bit integer, negative. */
  function StockProblem(stock: string): (r: Option<string>)
    ensures r.None? <==> ToIntOrNull(stock).Some? && ToIntOrNull(stock).value >= 0
    ensures stock == "" ==> r == Some(StockEmpty)
    ensures stock != "" && ToIntOrNull(stock).None? ==> r == Some(StockNotNumber)
    ensures ToIntOrNull(stock).Some? && ToIntOrNull(stock).value < 0 ==> r == Some(StockNegative)
  {
    if stock == "" then Some(StockEmpty)
    else if ToIntOrNull(stock).None? then Some(StockNotNumber)
    else if ToIntOrNull(stock).value < 0 then Some(StockNegative)
    else None
  }

  /** A stock typed through the form holds digits only, so it is never
    * refused as negative; only a loaded negative stock is. */
  lemma TypedStockNeverNegative(stock: string)
    requires AllDigits(stock)
    ensures StockProblem(stock) != Some(StockNegative)
  {
  }

  /** A stock loaded from a product and left alone passes exactly when it is
    * not negative, and reads back as the stored number. */
  lemma LoadedStockRoundTrip(stock: int)
    requires IntMin <= stock <= IntMax
    ensures ToIntOrNull(IntToString(stock)) == Some(stock)
    ensures StockProblem(IntToString(stock)).None? <==> stock >= 0
  {
    IntTextRoundTrip(stock);
  }

  datatype EditProductUi = EditProductUi(
    productId: string,
    name: string,
    description: string,
    price: string,
    imageUrl: string,
    brand: string,
    category: Option<string>,
    stock: string,
    rating: int,
    reviewCount: int,
    isLoading: bool,
    errorMessage: Option<string>,
    isSuccess: bool)

  const InitialEditProductUi := EditProductUi("", "", "", "", "", "", None, "", 0, 0, false, None, false)

  /** The first five checks pass, so the category is looked at next. */
  predicate ReachesCategory(u: EditProductUi)
  {
    u.name != "" && u.description != "" && AddProduct.PriceProblem(u.price).None? && u.imageUrl != "" && u.brand != ""
  }

  /** The message the first failing check sets, or None when all pass: name,
    * description, price, image, brand, category, stock. The category check
    * dereferences the field, so it must have been chosen by then. */
  function EditProblem(u: EditProductUi): (r: Option<string>)
    requires ReachesCategory(u) ==> u.category.Some?
    ensures r.None? <==> ReachesCategory(u) && u.category.value != "" && StockProblem(u.stock).None?
    ensures u.name == "" ==> r == Some(AddProduct.NameEmpty)
    ensures u.name != "" && u.description == "" ==> r == Some(AddProduct.DescriptionEmpty)
    ensures u.name != "" && u.description != "" && AddProduct.PriceProblem(u.price).Some? ==>
      r == AddProduct.PriceProblem(u.price)
    ensures ReachesCategory(u) && u.category.value == "" ==> r == Some(AddProduct.CategoryMissing)
    ensures ReachesCategory(u) && u.category.value != "" && StockProblem(u.stock).Some? ==> r == StockProblem(u.stock)
  {
    if u.name == "" then Some(AddProduct.NameEmpty)
    else if u.description == "" then Some(AddProduct.DescriptionEmpty)
    else if AddProduct.PriceProblem(u.price).Some? then AddProduct.PriceProblem(u.price)
    else if u.imageUrl == "" then Some(AddProduct.ImageUrlEmpty)
    else if u.brand == "" then Some(AddProduct.BrandEmpty)
    else if u.category.value == "" then Some(AddProduct.CategoryMissing)
    else StockProblem(u.stock)
  }

  /** The product `updateProduct` writes for a form that passed. */
  function EditedProduct(u: EditProductUi): (p: Product)
    requires ReachesCategory(u) ==> u.category.Some?
    requires EditProblem(u).None?
    ensures p.id == u.productId && p.rating == u.rating && p.reviewCount == u.reviewCount && !p.isFavorite
    ensures p.name == u.name && p.description == u.description && p.imageUrl == u.imageUrl && p.brand == u.brand
    ensures p.category == u.category && p.selectedSize.None?
    ensures Some(p.price) == ToDoubleOrNull(u.price) && p.price > 0.0
    ensures Some(p.stock) == ToIntOrNull(u.stock) && 0 <= p.stock <= IntMax
  {
    Product(u.productId, u.name, u.brand, u.description, ToDoubleOrNull(u.price).value, None, u.rating,
            u.reviewCount, ToIntOrNull(u.stock).value, u.imageUrl, u.category, false)
  }

  class EditProductViewModel {
    var ui: EditProductUi
    /** The `products` node, by key. */
    var products: map<string, Product>

    constructor(products: map<string, Product>)
      ensures ui == InitialEditProductUi && this.products == products
    {
      ui := InitialEditProductUi;
      this.products := products;
    }

    /** `loadProduct`: the stored product's fields as text. `priceText` is
      * the rendering of its price (`Double.toString`), `failure` the message
      * of a failed read. A missing product leaves the fields as they were. */
    method LoadProduct(productId: string, priceText: string, failure: Option<Option<string>>)
      modifies this
      ensures products == old(products)
      ensures failure.Some? ==>
        ui == old(ui).(productId := productId, isLoading := false,
                       errorMessage := Some("Error loading product: " + failure.value.GetOr("null")))
      ensures failure.None? && productId !in products ==>
        ui == old(ui).(productId := productId, isLoading := false, errorMessage := Some("Product not found"))
      ensures failure.None? && productId in products ==>
        var p := products[productId];
        ui == old(ui).(productId := productId, name := p.name, description := p.description, price := priceText,
                       imageUrl := p.imageUrl, brand := p.brand, category := p.category,
                       stock := IntToString(p.stock), rating := p.rating, reviewCount := p.reviewCount,
                       isLoading := false)
    {
      ui := ui.(isLoading := true, productId := productId);
      if failure.Some? {
        ui := ui.(isLoading := false, errorMessage := Some("Error loading product: " + failure.value.GetOr("null")));
        return;
      }
      if productId !in products {
        ui := ui.(isLoading := false, errorMessage := Some("Product not found"));
        return;
      }
      var p := products[productId];
      ui := ui.(name := p.name, description := p.description, price := priceText, imageUrl := p.imageUrl,
                brand := p.brand, category := p.category, stock := IntToString(p.stock), rating := p.rating,
                reviewCount := p.reviewCount, isLoading := false);
    }

    method OnNameChange(name: string)
      modifies this
      ensures ui == old(ui).(name := name) && products == old(products)
    {
      ui := ui.(name := name);
    }

    method OnDescriptionChange(description: string)
      modifies this
      ensures ui == old(ui).(description := description) && products == old(products)
    {
      ui := ui.(description := description);
    }

    method OnSelectedCategoryChange(selectedCategory: string)
      modifies this
      ensures ui == old(ui).(category := Some(selectedCategory)) && products == old(products)
    {
      ui := ui.(category := Some(selectedCategory));
    }

    method OnPriceChange(price: string)
      modifies this
      ensures ui == old(ui).(price := price) && products == old(products)
    {
      ui := ui.(price := price);
    }

    method OnImageUrlChange(imageUrl: string)
      modifies this
      ensures ui == old(ui).(imageUrl := imageUrl) && products == old(products)
    {
      ui := ui.(imageUrl := imageUrl);
    }

    method OnBrandChange(brand: string)
      modifies this
      ensures ui == old(ui).(brand := brand) && products == old(products)
    {
      ui := ui.(brand := brand);
    }

    /** `onStockChange`: only an empty text or one of digits is taken. */
    method OnStockChange(stock: string)
      modifies this
      ensures stock == "" || AllDigits(stock) ==> ui == old(ui).(stock := stock)
      ensures !(stock == "" || AllDigits(stock)) ==> ui == old(ui)
      ensures products == old(products)
    {
      if stock == "" || AllDigits(stock) {
        ui := ui.(stock := stock);
      }
    }

    /** `updateProduct`: a failing check only sets its message. Otherwise the
      * product built from the form replaces the stored one under the form's
      * id; a failed write (`failure`, an exception's message) sets an
      * error. */
    method UpdateProduct(failure: Option<Option<string>>)
      requires ReachesCategory(ui) ==> ui.category.Some?
      modifies this
      ensures EditProblem(old(ui)).Some? ==>
        ui == old(ui).(errorMessage := EditProblem(old(ui))) && products == old(products)
      ensures EditProblem(old(ui)).None? && failure.None? ==>
        ui == old(ui).(isLoading := false, isSuccess := true, errorMessage := None)
        && products == old(products)[old(ui).productId := EditedProduct(old(ui))]
      ensures EditProblem(old(ui)).None? && failure.Some? ==>
        ui == old(ui).(isLoading := false,
                       errorMessage := Some("Failed to update product: " + failure.value.GetOr("null")))
        && products == old(products)
    {
      var problem := EditProblem(ui);
      if problem.Some? {
        ui := ui.(errorMessage := problem);
        return;
      }
      ui := ui.(isLoading := true, errorMessage := None);
      var product := EditedProduct(ui);
      if failure.Some? {
        ui := ui.(isLoading := false, errorMessage := Some("Failed to update product: " + failure.value.GetOr("null")));
        return;
      }
      products := products[ui.productId := product];
      ui := ui.(isLoading := false, isSuccess := true);
    }
  }

  /** Loading a product and saving it unchanged keeps its id, rating, review
    * count, name and stock, and writes it back with `isFavorite` false. */
  lemma ReloadedProductSavedBack(p: Product, u: EditProductUi)
    requires IntMin <= p.stock <= IntMax
    requires u.productId == p.id && u.name == p.name && u.stock == IntToString(p.stock)
    requires u.rating == p.rating && u.reviewCount == p.reviewCount
    requires ReachesCategory(u) ==> u.category.Some?
    requires EditProblem(u).None?
    ensures EditedProduct(u) == p.(price := EditedProduct(u).price, description := u.description,
                                   imageUrl := u.imageUrl, brand := u.brand, category := u.category,
                                   selectedSize := None, isFavorite := false)
  {
    IntTextRoundTrip(p.stock);
  }
}
