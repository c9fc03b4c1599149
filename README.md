# A verified model of the shop app's view-model logic

The repository is an Android shop app written in Kotlin with Jetpack Compose. It stores its data in a
Firebase Realtime Database and signs users in with Firebase Authentication. The logic worth
modelling lives in the view models:

- the product catalogue query (category, search and six sort orders);
- the product screens (quantity, stock, sizes, reviews and ratings);
- the cart and checkout totals, and order placement;
- the order history, the admin's pending orders and the revenue screen, all of which read orders back
  from the database;
- the address book and its forms;
- the sign-in, sign-up, password and product forms with their validators;
- the admin's user and product lists, the favourites and the profile.

This project models those view models in Dafny and proves properties of them.

**State.** Each view model is a class with one `ui` field. That field is a datatype holding the
members of the Kotlin `uiState` data class, and `copy(...)` becomes a datatype update. The
database paths a view model reads and writes are fields of the same class. Depending on the view
model, such a field is a snapshot tree (`Snapshot.Value`), a `map` or a small store datatype.

**Outcomes.** Each outcome of a call to Firebase is a parameter of the method that makes the call:
whether a read or write succeeded, the exception's message, or what the authentication service
answered. Each method's `ensures` gives the new state for every combination of the outcomes the
code waits for. A write the code starts without waiting for its result cannot report a failure
back to it, so the model treats that write as done. Only a synchronous throw that such a call
can raise reaches the code's error handling, and the model keeps that throw (for example an
invalid key on `child()`).

**Reads.** Typed reads follow Firebase's `getValue(T::class.java)`. A missing child reads as null.
A child of another type throws, and the model carries that as a failed read. Integer reads are
range-checked against `Int` and `Long`.

**Sorting.** Kotlin's stable `sortedBy`, `sortedByDescending` and `sortedWith(...thenBy...)` are
modelled by one stable sort in `Sorting`. It is proved sorted, a permutation and stable.

| module | file(s) | models |
|---|---|---|
| Common | common.dfy | Option, blank strings, ASCII character classes, `lowercase`, `contains`, number-to-text, filters and sums |
| Snapshot | snapshot.dfy | a database snapshot as an ordered tree, and typed reads with Kotlin's `?:` defaults |
| Sorting | sorting.dfy | the stable sort shared by every sorted list |
| Model | model.dfy | the records under `app/src/main/java/com/example/ecommerceapp/model/` |
| NumberText | number_text.dfy | `toIntOrNull` and `toDoubleOrNull` as the product forms use them |
| Catalog | catalog.dfy | the filter-then-sort pipeline and the favourite toggle shared by both shop view models |
| Shop | shop.dfy | `presentation/shop/ShopViewModel.kt` |
| LegacyShop | legacy_shop.dfy | `presentation/Shop/ShopViewModel.kt` |
| ShopScreenState | shop_screen.dfy | `presentation/shop/ShopScreen.kt` |
| ProductDetail | product_detail.dfy | `presentation/shop/productDetail/ProductDetailViewModel.kt` |
| LegacyProductDetail | legacy_product_detail.dfy | `presentation/Shop/ProductDetail/ProductDetailViewModel.kt` |
| Cart | cart.dfy | `presentation/cart/CartViewModel.kt` |
| Checkout | checkout.dfy | `presentation/Order/OrderViewModel.kt` |
| OrderRecords | order_records.dfy | the order record `placeOrder` writes and the three `parseOrder` readers |
| OrderHistory | order_history.dfy | `presentation/profile/OrderHistory/OrderHistoryViewModel.kt` |
| OrderHistoryScreen | order_history_screen.dfy | `presentation/profile/OrderHistory/OrderHistoryScreen.kt` |
| OrderDetail | order_detail.dfy | `presentation/profile/OrderHistory/OrderHistoryDetailViewModel.kt` |
| AdminOrders | admin_orders.dfy | `presentation/manageOrder/ManageOrderViewModel.kt` |
| Revenue | revenue.dfy | `presentation/revenueManage/RevenueManageViewModel.kt` |
| AddressBook | address_book.dfy | `presentation/profile/UserAddress/AddressList/AddressListViewModel.kt` |
| AddressForm | address_form.dfy | `AddAddress/AddAddressViewModel.kt` and `EditAddress/EditAddressViewModel.kt` |
| ResetPassword | reset_password.dfy | `auth/authenticate/reset_password/ResetPasswordViewModel.kt` |
| SignIn | sign_in.dfy | `auth/authenticate/sign_in/SignInViewModel.kt` |
| LegacySignIn | legacy_sign_in.dfy | `presentation/sign_in/SignInViewModel.kt` |
| SignUp | sign_up.dfy | `presentation/sign_up/SignUpViewModel.kt` |
| ChangePassword | change_password.dfy | `presentation/profile/Setting/changePassword/ChangePasswordViewModel.kt` |
| AddProduct | add_product.dfy | `presentation/shop/productManage/AddProductViewModel.kt` |
| EditProduct | edit_product.dfy | `presentation/admin/manageProduct/EditProductViewModel.kt` |
| ManageProduct | manage_product.dfy | `presentation/admin/manageProduct/ManageProductViewModel.kt` |
| ManageUser | manage_user.dfy | `presentation/manageUser/ManageUserViewModel.kt` |
| Favorites | favorites.dfy | `presentation/favorite_item/FavoriteViewModel.kt` |
| Profile | profile.dfy | `presentation/profile/ProfileViewModel.kt` |

## Model

| member | source | states |
|---|---|---|
| ResetPassword.EmailShape | app/src/main/java/com/example/ecommerceapp/auth/authenticate/reset_password/ResetPasswordViewModel.kt:53 | a string the e-mail pattern matches has an '@' after at least one character; after an '@' only lower-case letters and dots follow; and once a letter follows a dot in the domain, only letters follow |
| ResetPassword.TwoPartDomainRefused | app/src/main/java/com/example/ecommerceapp/auth/authenticate/reset_password/ResetPasswordViewModel.kt:53 | the pattern refuses `a@b.co.uk`, whose domain has two dotted parts |
| ResetPassword.CapitalDomainRefused | app/src/main/java/com/example/ecommerceapp/auth/authenticate/reset_password/ResetPasswordViewModel.kt:53 | the pattern refuses a capital letter in the domain (`a@Mail.com`) |
| ResetPassword.PlainAddressAccepted | app/src/main/java/com/example/ecommerceapp/auth/authenticate/reset_password/ResetPasswordViewModel.kt:53 | the pattern accepts `john.doe@mail.com` |
| ResetPassword.MatchesEmailExactly | app/src/main/java/com/example/ecommerceapp/auth/authenticate/reset_password/ResetPasswordViewModel.kt:53 | the left-to-right scan used by the checks accepts exactly the strings the regular expression matches as a whole |
| ResetPassword.EmailProblem | app/src/main/java/com/example/ecommerceapp/auth/authenticate/reset_password/ResetPasswordViewModel.kt:52-66 | an e-mail passes exactly when it is non-empty and matches the pattern. An empty one gets "Email cannot be empty"; a non-empty one that does not match gets "Please enter a valid email" |
| ResetPassword.ResetPasswordViewModel.constructor | app/src/main/java/com/example/ecommerceapp/auth/authenticate/reset_password/ResetPasswordViewModel.kt:13-23 | the screen starts with an empty e-mail, not loading, no success and no error |
| ResetPassword.ResetPasswordViewModel.UpdateEmail | app/src/main/java/com/example/ecommerceapp/auth/authenticate/reset_password/ResetPasswordViewModel.kt:27-29 | only the e-mail field changes |
| ResetPassword.ResetPasswordViewModel.ValidateEmail | app/src/main/java/com/example/ecommerceapp/auth/authenticate/reset_password/ResetPasswordViewModel.kt:52-66 | returns true exactly when `EmailProblem` finds nothing; a failure sets only the error message, a pass changes nothing |
| ResetPassword.ResetPasswordViewModel.ResetPassword | app/src/main/java/com/example/ecommerceapp/auth/authenticate/reset_password/ResetPasswordViewModel.kt:31-50 | a request is sent exactly when the e-mail passes; otherwise only the check's message is set. A sent request ends loading and either sets success with no error, or sets the exception's message, or "Failed to send reset email" when it has none |
| SignIn.SignInProblem | app/src/main/java/com/example/ecommerceapp/auth/authenticate/sign_in/SignInViewModel.kt:57-88 | the credentials pass exactly when the e-mail is non-empty and the password has at least 6 characters. The e-mail is checked first, and each failure has its own message |
| SignIn.BanStatus | app/src/main/java/com/example/ecommerceapp/auth/authenticate/sign_in/SignInViewModel.kt:103-104 | a missing `banned` flag counts as not banned; the user is banned exactly when a stored `true` is found; the read fails exactly when the flag is stored but is not a Boolean |
| SignIn.BanStatusOfNewUser | app/src/main/java/com/example/ecommerceapp/auth/authenticate/sign_in/SignInViewModel.kt:102-117 | a user whose record has no `banned` child is let in |
| SignIn.SignInViewModel.constructor | app/src/main/java/com/example/ecommerceapp/auth/authenticate/sign_in/SignInViewModel.kt:33-39 | `hasUser` starts as whether a user is signed in; every other field takes its default |
| SignIn.SignInViewModel.UpdateEmail | app/src/main/java/com/example/ecommerceapp/auth/authenticate/sign_in/SignInViewModel.kt:41-47 | only the e-mail field changes |
| SignIn.SignInViewModel.UpdatePassword | app/src/main/java/com/example/ecommerceapp/auth/authenticate/sign_in/SignInViewModel.kt:49-55 | only the password field changes |
| SignIn.SignInViewModel.SignIn | app/src/main/java/com/example/ecommerceapp/auth/authenticate/sign_in/SignInViewModel.kt:81-135 | the service is asked exactly when the checks pass; otherwise only the first check's message is set. A failed sign-in or a failed flag read sets the exception's message. A banned user is signed out again and gets the ban message. Anyone else, including an account without an id, signs in with success set |
| SignIn.SignInViewModel.ResetSignInState | app/src/main/java/com/example/ecommerceapp/auth/authenticate/sign_in/SignInViewModel.kt:138-145 | only `isSuccess` and `hasUser` are cleared |
| SignIn.SignInViewModel.ResetPassword | app/src/main/java/com/example/ecommerceapp/auth/authenticate/sign_in/SignInViewModel.kt:148-171 | an empty e-mail calls `onError` with "Please enter your email address" and changes nothing. Otherwise `onSuccess` is called, or `onError` with the exception's message (or the fixed fallback), and loading ends as it began |
| LegacySignIn.LegacySignInViewModel.constructor | app/src/main/java/com/example/ecommerceapp/presentation/sign_in/SignInViewModel.kt:30-36 | `hasUser` starts as whether a user is signed in; every other field takes its default |
| LegacySignIn.LegacySignInViewModel.UpdateEmail | app/src/main/java/com/example/ecommerceapp/presentation/sign_in/SignInViewModel.kt:38-44 | only the e-mail field changes |
| LegacySignIn.LegacySignInViewModel.UpdatePassword | app/src/main/java/com/example/ecommerceapp/presentation/sign_in/SignInViewModel.kt:46-52 | only the password field changes |
| LegacySignIn.LegacySignInViewModel.SignIn | app/src/main/java/com/example/ecommerceapp/presentation/sign_in/SignInViewModel.kt:54-113 | the service is asked exactly when the same two checks pass; otherwise only the first check's message is set. A success signs the user in and sets success; a failure sets the exception's message |
| LegacySignIn.LegacySignInViewModel.ResetSignInState | app/src/main/java/com/example/ecommerceapp/presentation/sign_in/SignInViewModel.kt:116-123 | only `isSuccess` and `hasUser` are cleared |
| SignUp.SignUpProblem | app/src/main/java/com/example/ecommerceapp/presentation/sign_up/SignUpViewModel.kt:65-129 | the form passes exactly when the e-mail and name are non-empty, the password has at least 6 characters and the confirmation equals it. The checks run in that order, and the first failure's message is given |
| SignUp.SignUpPassesSignIn | app/src/main/java/com/example/ecommerceapp/presentation/sign_up/SignUpViewModel.kt:65-99 | credentials that sign-up accepts also pass sign-in's checks, and an empty e-mail gets the same message on both screens |
| SignUp.UserRecordReadBack | app/src/main/java/com/example/ecommerceapp/presentation/sign_up/SignUpViewModel.kt:142-152 | the stored user record reads back the e-mail, name, both passwords and creation date given. It has no `banned` flag, so sign-in lets the user in. Every other user is untouched |
| SignUp.SignUpViewModel.constructor | app/src/main/java/com/example/ecommerceapp/presentation/sign_up/SignUpViewModel.kt:16-24 | every field starts at its default |
| SignUp.SignUpViewModel.UpdateEmail | app/src/main/java/com/example/ecommerceapp/presentation/sign_up/SignUpViewModel.kt:33-39 | only the e-mail field changes |
| SignUp.SignUpViewModel.UpdateName | app/src/main/java/com/example/ecommerceapp/presentation/sign_up/SignUpViewModel.kt:41-47 | only the name field changes |
| SignUp.SignUpViewModel.UpdatePassword | app/src/main/java/com/example/ecommerceapp/presentation/sign_up/SignUpViewModel.kt:49-55 | only the password field changes |
| SignUp.SignUpViewModel.UpdateConfirmPassword | app/src/main/java/com/example/ecommerceapp/presentation/sign_up/SignUpViewModel.kt:57-63 | only the confirmation field changes |
| SignUp.SignUpViewModel.SignUp | app/src/main/java/com/example/ecommerceapp/presentation/sign_up/SignUpViewModel.kt:114-172 | the service is asked exactly when the screen's fields pass; otherwise only the first message is set. A failed creation sets the exception's message. A created account is a success even when its record cannot be written. The record of the arguments is stored under the new id only when there is an id and the write succeeds |
| SignUp.SignUpViewModel.ResetSignUpState | app/src/main/java/com/example/ecommerceapp/presentation/sign_up/SignUpViewModel.kt:174-180 | only `isSuccess` is cleared |
| ChangePassword.ChangeProblem | app/src/main/java/com/example/ecommerceapp/presentation/profile/Setting/changePassword/ChangePasswordViewModel.kt:42-97 | the form passes exactly when the current password is non-empty and the new one has at least 8 characters mixing upper case, lower case, a digit and a special character, and the confirmation is non-empty and equal to it. Each check in order has its own message |
| ChangePassword.ChangeProblemExamples | app/src/main/java/com/example/ecommerceapp/presentation/profile/Setting/changePassword/ChangePasswordViewModel.kt:50-83 | an all lower-case password is refused as weak, `Abcdef1!` is accepted, and a confirmation that differs is refused |
| ChangePassword.AcceptedPasswordSignsIn | app/src/main/java/com/example/ecommerceapp/presentation/profile/Setting/changePassword/ChangePasswordViewModel.kt:58-61 | a new password this screen accepts also passes sign-in's length check |
| ChangePassword.ErrorText | app/src/main/java/com/example/ecommerceapp/presentation/profile/Setting/changePassword/ChangePasswordViewModel.kt:164-166 | the text is "Error: " followed by the exception's message, by "null" when it has none, or by the fallback when the exception itself is missing |
| ChangePassword.ReauthFailureText | app/src/main/java/com/example/ecommerceapp/presentation/profile/Setting/changePassword/ChangePasswordViewModel.kt:111-130 | a message containing "invalid" means a wrong current password. Otherwise one containing "malformed" or "expired" means an expired session. Anything else is rethrown and shown as `ErrorText` with "Authentication failed" |
| ChangePassword.PasswordStoredReadBack | app/src/main/java/com/example/ecommerceapp/presentation/profile/Setting/changePassword/ChangePasswordViewModel.kt:140-142 | the stored password reads back as the new one; the user's other fields and every other user are untouched |
| ChangePassword.ChangePasswordViewModel.constructor | app/src/main/java/com/example/ecommerceapp/presentation/profile/Setting/changePassword/ChangePasswordViewModel.kt:16-27 | no messages and three empty fields |
| ChangePassword.ChangePasswordViewModel.UpdateOldPassword | app/src/main/java/com/example/ecommerceapp/presentation/profile/Setting/changePassword/ChangePasswordViewModel.kt:30-32 | only the current-password field changes |
| ChangePassword.ChangePasswordViewModel.UpdateNewPassword | app/src/main/java/com/example/ecommerceapp/presentation/profile/Setting/changePassword/ChangePasswordViewModel.kt:34-36 | only the new-password field changes |
| ChangePassword.ChangePasswordViewModel.UpdateConfirmNewPassword | app/src/main/java/com/example/ecommerceapp/presentation/profile/Setting/changePassword/ChangePasswordViewModel.kt:38-40 | only the confirmation field changes |
| ChangePassword.ChangePasswordViewModel.ChangePassword | app/src/main/java/com/example/ecommerceapp/presentation/profile/Setting/changePassword/ChangePasswordViewModel.kt:85-174 | a failed check sets its message. Without a signed-in user with an e-mail, the message is "User not logged in". A failed re-authentication, password update or database write sets its message and stores nothing. Only full success stores the new password under the user, sets the success message and empties the three fields |
| ChangePassword.ChangePasswordViewModel.ClearMessages | app/src/main/java/com/example/ecommerceapp/presentation/profile/Setting/changePassword/ChangePasswordViewModel.kt:176-178 | both messages are cleared and the fields stay |
| NumberText.ToIntOrNull | app/src/main/java/com/example/ecommerceapp/presentation/admin/manageProduct/EditProductViewModel.kt:179 | a parsed value lies within 32 bits and is negative only after a leading '-'; a string of digits reads as the number it spells, or as null beyond `Int.MAX_VALUE`; the empty string is null |
| NumberText.NatTextRoundTrip | app/src/main/java/com/example/ecommerceapp/presentation/admin/manageProduct/EditProductViewModel.kt:55 | a natural number's decimal text is all digits and spells the number back |
| NumberText.IntTextRoundTrip | app/src/main/java/com/example/ecommerceapp/presentation/admin/manageProduct/EditProductViewModel.kt:55 | the stock loaded as `stock.toString()` parses back with `toIntOrNull()` to the same 32-bit number |
| NumberText.ToDoubleOrNull | app/src/main/java/com/example/ecommerceapp/presentation/shop/productManage/AddProductViewModel.kt:96 | a parsed value is non-negative unless the text starts with '-', and then it is non-positive; the empty string is null |
| NumberText.DigitsAsDouble | app/src/main/java/com/example/ecommerceapp/presentation/admin/manageProduct/EditProductViewModel.kt:135 | a text of digits alone reads as the whole number it spells |
| NumberText.DecimalExamples | app/src/main/java/com/example/ecommerceapp/presentation/shop/productManage/AddProductViewModel.kt:96 | "12.5" reads as 12.5 and "0.0" as zero; "1,5" and "." are not numbers |
| AddProduct.PriceProblem | app/src/main/java/com/example/ecommerceapp/presentation/shop/productManage/AddProductViewModel.kt:86-116 | an empty price gives "Price must not be empty". Text that does not parse gives "Price must be a valid number". A value at or below zero gives "Price must be greater than zero". The price passes exactly when it parses to a positive number |
| AddProduct.PriceProblemSigns | app/src/main/java/com/example/ecommerceapp/presentation/shop/productManage/AddProductViewModel.kt:86-116 | a price typed with a leading minus is always refused; a price of digits only passes exactly when the number it spells is not zero |
| AddProduct.AddProblem | app/src/main/java/com/example/ecommerceapp/presentation/shop/productManage/AddProductViewModel.kt:62-178 | the checks run name, description, price, image URL, brand, then `selectedCategory` (never `category`), and the first failing check's message is the result; None exactly when all six pass |
| AddProduct.NewProduct | app/src/main/java/com/example/ecommerceapp/presentation/shop/productManage/AddProductViewModel.kt:183-198 | the product stored has the pushed key as id, the form's texts, category = `selectedCategory`, the parsed positive price, rating 0, review count 0, stock 0 and is not a favourite |
| AddProduct.ClearedFormRefused | app/src/main/java/com/example/ecommerceapp/presentation/shop/productManage/AddProductViewModel.kt:203-216 | the form as reset after a successful add fails the name check again, so pressing the button again adds nothing |
| AddProduct.AddProductViewModel.constructor | app/src/main/java/com/example/ecommerceapp/presentation/shop/productManage/AddProductViewModel.kt:17-30 | the form starts with empty fields, category "unknown", no error, not loading, not succeeded |
| AddProduct.AddProductViewModel.OnNameChange | app/src/main/java/com/example/ecommerceapp/presentation/shop/productManage/AddProductViewModel.kt:37-39 | only the name changes |
| AddProduct.AddProductViewModel.OnDescriptionChange | app/src/main/java/com/example/ecommerceapp/presentation/shop/productManage/AddProductViewModel.kt:41-43 | only the description changes |
| AddProduct.AddProductViewModel.OnSelectedCategoryChange | app/src/main/java/com/example/ecommerceapp/presentation/shop/productManage/AddProductViewModel.kt:45-47 | only the selected category changes |
| AddProduct.AddProductViewModel.OnPriceChange | app/src/main/java/com/example/ecommerceapp/presentation/shop/productManage/AddProductViewModel.kt:49-51 | only the price text changes |
| AddProduct.AddProductViewModel.OnImageUrlChange | app/src/main/java/com/example/ecommerceapp/presentation/shop/productManage/AddProductViewModel.kt:53-55 | only the image URL changes |
| AddProduct.AddProductViewModel.OnBrandChange | app/src/main/java/com/example/ecommerceapp/presentation/shop/productManage/AddProductViewModel.kt:57-59 | only the brand changes |
| AddProduct.AddProductViewModel.AddProduct | app/src/main/java/com/example/ecommerceapp/presentation/shop/productManage/AddProductViewModel.kt:154-226 | a failing check sets only its message and writes nothing. Otherwise a write that succeeds stores `NewProduct` under the new key and clears every field, with `isSuccess` set. A write that fails keeps the store and sets the exception's message, or "Unknown error occurred" when it has none |
| EditProduct.StockProblem | app/src/main/java/com/example/ecommerceapp/presentation/admin/manageProduct/EditProductViewModel.kt:173-191 | an empty stock gives "Stock must not be empty". Text that is not a 32-bit integer gives "Stock must be a valid number". A negative number gives "Stock cannot be negative". The stock passes exactly when it reads as a number of at least zero |
| EditProduct.TypedStockNeverNegative | app/src/main/java/com/example/ecommerceapp/presentation/admin/manageProduct/EditProductViewModel.kt:105-110 | a stock that passed the digits-only input filter is never refused as negative |
| EditProduct.LoadedStockRoundTrip | app/src/main/java/com/example/ecommerceapp/presentation/admin/manageProduct/EditProductViewModel.kt:55 | a stored stock, rendered with `toString` when the product is loaded, reads back as the same number and passes the check exactly when it is not negative |
| EditProduct.EditProblem | app/src/main/java/com/example/ecommerceapp/presentation/admin/manageProduct/EditProductViewModel.kt:113-197 | the checks run name, description, price, image URL, brand, category, stock, and the first failing check's message is the result; None exactly when all seven pass. The category must be set by the time its check runs (`!!`) |
| EditProduct.EditedProduct | app/src/main/java/com/example/ecommerceapp/presentation/admin/manageProduct/EditProductViewModel.kt:203-218 | the saved product keeps the loaded id, rating and review count. It takes the form's texts and category, the parsed positive price and the parsed non-negative stock, and is not a favourite |
| EditProduct.ReloadedProductSavedBack | app/src/main/java/com/example/ecommerceapp/presentation/admin/manageProduct/EditProductViewModel.kt:38-219 | a product loaded into the form and saved with its id, name, stock, rating and review count untouched comes back with those fields unchanged; only `isFavorite` is reset |
| EditProduct.EditProductViewModel.constructor | app/src/main/java/com/example/ecommerceapp/presentation/admin/manageProduct/EditProductViewModel.kt:16-32 | the form starts empty, with no category chosen |
| EditProduct.EditProductViewModel.LoadProduct | app/src/main/java/com/example/ecommerceapp/presentation/admin/manageProduct/EditProductViewModel.kt:38-78 | the product id is recorded. A stored product's fields are copied into the form, with price and stock as text. A missing product gives "Product not found" and a failed read gives "Error loading product: " plus the message; in both cases the fields are kept |
| EditProduct.EditProductViewModel.OnNameChange | app/src/main/java/com/example/ecommerceapp/presentation/admin/manageProduct/EditProductViewModel.kt:81-83 | only the name changes |
| EditProduct.EditProductViewModel.OnDescriptionChange | app/src/main/java/com/example/ecommerceapp/presentation/admin/manageProduct/EditProductViewModel.kt:85-87 | only the description changes |
| EditProduct.EditProductViewModel.OnSelectedCategoryChange | app/src/main/java/com/example/ecommerceapp/presentation/admin/manageProduct/EditProductViewModel.kt:89-91 | only the category changes |
| EditProduct.EditProductViewModel.OnPriceChange | app/src/main/java/com/example/ecommerceapp/presentation/admin/manageProduct/EditProductViewModel.kt:93-95 | only the price text changes |
| EditProduct.EditProductViewModel.OnImageUrlChange | app/src/main/java/com/example/ecommerceapp/presentation/admin/manageProduct/EditProductViewModel.kt:97-99 | only the image URL changes |
| EditProduct.EditProductViewModel.OnBrandChange | app/src/main/java/com/example/ecommerceapp/presentation/admin/manageProduct/EditProductViewModel.kt:101-103 | only the brand changes |
| EditProduct.EditProductViewModel.OnStockChange | app/src/main/java/com/example/ecommerceapp/presentation/admin/manageProduct/EditProductViewModel.kt:105-110 | an empty text or one of digits only is stored as the stock; any other input leaves the whole state unchanged |
| EditProduct.EditProductViewModel.UpdateProduct | app/src/main/java/com/example/ecommerceapp/presentation/admin/manageProduct/EditProductViewModel.kt:193-232 | a failing check sets only its message. Otherwise a successful write stores `EditedProduct` under the form's id and sets `isSuccess`, and a failed write sets "Failed to update product: " plus the message and keeps the store |
| Sorting.TextLessIrreflexive | app/src/main/java/com/example/ecommerceapp/presentation/shop/ShopViewModel.kt:231 | no name sorts strictly before itself under `String.compareTo` |
| Sorting.TextLessTransitive | app/src/main/java/com/example/ecommerceapp/presentation/shop/ShopViewModel.kt:231-232 | the string order used by the name sorts is transitive |
| Sorting.TextLessTotal | app/src/main/java/com/example/ecommerceapp/presentation/shop/ShopViewModel.kt:231-232 | of two different names one sorts strictly before the other |
| Sorting.KeyLessTransitive | app/src/main/java/com/example/ecommerceapp/presentation/shop/ShopViewModel.kt:230-237 | the order on sort keys is transitive |
| Sorting.KeyLessTotal | app/src/main/java/com/example/ecommerceapp/presentation/shop/ShopViewModel.kt:230-237 | of two different sort keys one is strictly smaller |
| Sorting.SortBySorted | app/src/main/java/com/example/ecommerceapp/presentation/shop/ShopViewModel.kt:230-237 | `sortedBy` and `sortedByDescending` give a list in which no element comes before one that should precede it |
| Sorting.SortByPermutes | app/src/main/java/com/example/ecommerceapp/presentation/shop/ShopViewModel.kt:230-237 | sorting keeps every element as often as before, and the length |
| Sorting.SortByStable | app/src/main/java/com/example/ecommerceapp/presentation/shop/ShopViewModel.kt:230-237 | the elements sharing one key keep their relative order |
| Sorting.SortByCorrect | app/src/main/java/com/example/ecommerceapp/presentation/shop/ShopViewModel.kt:230-237 | the sort is ordered, a permutation of its input, and stable |
| Catalog.FilterStage | app/src/main/java/com/example/ecommerceapp/presentation/shop/ShopViewModel.kt:210-227 | the category and search filters keep, in their original order, exactly the products whose category contains the filter ignoring case and whose lower-cased name contains the lower-cased query. An absent, empty or "More" category, and an empty query, filter nothing |
| Catalog.SortStageOrder | app/src/main/java/com/example/ecommerceapp/presentation/shop/ShopViewModel.kt:230-237 | each sort order gives its order: names A to Z or Z to A, prices ascending or descending, ratings descending; no sort keeps the filtered order |
| Catalog.SortStagePermutes | app/src/main/java/com/example/ecommerceapp/presentation/shop/ShopViewModel.kt:230-237 | sorting keeps the filtered products with their multiplicities, and products with equal keys stay in filtered order |
| Catalog.QueryCorrect | app/src/main/java/com/example/ecommerceapp/presentation/shop/ShopViewModel.kt:208-240 | `getFilteredAndSortedProducts` holds exactly the selected products of the catalogue, each as often as the filters keep it |
| Catalog.FindById | app/src/main/java/com/example/ecommerceapp/presentation/shop/ShopViewModel.kt:244 | `find` finds a product exactly when one has the id, and the product it returns has that id and is in the list |
| Catalog.FindByIdFirst | app/src/main/java/com/example/ecommerceapp/presentation/shop/ShopViewModel.kt:244 | `find` returns the first product with the id |
| Catalog.SetFavorite | app/src/main/java/com/example/ecommerceapp/presentation/shop/ShopViewModel.kt:248-250 | the list keeps its length and order; the products with the id take the flag and the others are unchanged |
| Catalog.SetFavoriteOverrides | app/src/main/java/com/example/ecommerceapp/presentation/shop/ShopViewModel.kt:271-274 | a second flag write on the same id overrides the first |
| Catalog.ToggleFlipsExactly | app/src/main/java/com/example/ecommerceapp/presentation/shop/ShopViewModel.kt:242-254 | when all products with the id agree on the flag, the toggle flips the flag of exactly those products and changes nothing else |
| Catalog.ToggleTwiceRestores | app/src/main/java/com/example/ecommerceapp/presentation/shop/ShopViewModel.kt:242-254 | toggling the same product twice restores the list |
| Catalog.AfterToggleOutcome | app/src/main/java/com/example/ecommerceapp/presentation/shop/ShopViewModel.kt:242-278 | after a completed write the list is the toggle; after a failed one it is the list with the first matching product's old flag written back to every product with the id |
| Catalog.StoredFavorite | app/src/main/java/com/example/ecommerceapp/presentation/shop/ShopViewModel.kt:259-267 | a product that was not a favourite is stored under its id with the flag set; one that was is removed; other favourites are untouched |
| Catalog.DeliveredMarksFavorites | app/src/main/java/com/example/ecommerceapp/presentation/shop/ShopViewModel.kt:137-147 | every delivered product is marked favourite exactly when its id is among the user's favourite ids |
| Catalog.SortOrderText | app/src/main/java/com/example/ecommerceapp/presentation/shop/ShopScreen.kt:556-565 | only the unsorted order shows the label "Sort" |
| Catalog.SortOrderTextInjective | app/src/main/java/com/example/ecommerceapp/presentation/shop/ShopScreen.kt:556-565 | the six sort labels are distinct |
| Catalog.ChipSelection | app/src/main/java/com/example/ecommerceapp/presentation/shop/ShopScreen.kt:207-212 | tapping the selected chip clears the selection; tapping any other chip selects it |
| Catalog.ShopContentFor | app/src/main/java/com/example/ecommerceapp/presentation/shop/ShopScreen.kt:285-330 | the spinner comes first, then the error, then the empty state, then the grid. The empty state appears only when nothing matches, and offers "Clear All Filters" exactly when a query, a category or a sort is in force. The grid shows the filtered products |
| Shop.ShopPreferences.constructor | app/src/main/java/com/example/ecommerceapp/presentation/shop/ShopViewModel.kt:39-44 | the stored settings start with no sort, no category and an empty query |
| Shop.ShopViewModel.constructor | app/src/main/java/com/example/ecommerceapp/presentation/shop/ShopViewModel.kt:56-77 | a new instance takes its sort, category and query from the stored settings and starts loading with no error and no products |
| Shop.ShopViewModel.LoadProducts | app/src/main/java/com/example/ecommerceapp/presentation/shop/ShopViewModel.kt:110-114 | a load starts unless one is running and none is forced; a started load sets loading and clears the error; the products and settings are kept |
| Shop.ShopViewModel.OnProductsDelivered | app/src/main/java/com/example/ecommerceapp/presentation/shop/ShopViewModel.kt:123-154 | the list becomes the non-null products in snapshot order, each taking its key as id when it has none and marked favourite exactly when its id is a key of the user's stored favourites node (the view model's `favoriteStore`) as read at that delivery; loading ends |
| Shop.ShopViewModel.OnFavoritesReadFailed | app/src/main/java/com/example/ecommerceapp/presentation/shop/ShopViewModel.kt:155-162 | a failed read of the favourite ids ends loading with "Error loading products: " and the message, and keeps the list |
| Shop.ShopViewModel.OnCancelled | app/src/main/java/com/example/ecommerceapp/presentation/shop/ShopViewModel.kt:166-173 | a cancelled listener ends loading with "Failed to load products: " and the message, and keeps the list |
| Shop.ShopViewModel.SetFilterCategory | app/src/main/java/com/example/ecommerceapp/presentation/shop/ShopViewModel.kt:188-191 | the category changes in the state and in the stored settings; nothing else changes |
| Shop.ShopViewModel.SetSearchQuery | app/src/main/java/com/example/ecommerceapp/presentation/shop/ShopViewModel.kt:193-196 | the query changes in the state and in the stored settings; nothing else changes |
| Shop.ShopViewModel.SetSortOrder | app/src/main/java/com/example/ecommerceapp/presentation/shop/ShopViewModel.kt:198-201 | the sort changes in the state and in the stored settings; nothing else changes |
| Shop.ShopViewModel.ResetSort | app/src/main/java/com/example/ecommerceapp/presentation/shop/ShopViewModel.kt:203-206 | the sort returns to none in the state and in the stored settings; nothing else changes |
| Shop.ShopViewModel.FilteredAndSortedProducts | app/src/main/java/com/example/ecommerceapp/presentation/shop/ShopViewModel.kt:208-240 | returns the query's result, which holds exactly the selected products, and changes nothing |
| Shop.ShopViewModel.ToggleFavorite | app/src/main/java/com/example/ecommerceapp/presentation/shop/ShopViewModel.kt:242-278 | an unknown id changes nothing. Otherwise the flag of the products with the id flips at once. A successful write stores or removes the favourite; a failed one sets the flags back and stores nothing |
| Shop.FailedToggleRestores | app/src/main/java/com/example/ecommerceapp/presentation/shop/ShopViewModel.kt:269-276 | when the products with the id agree on their flag, setting the flag back after a failed write gives the list exactly as it was |
| LegacyShop.LegacyShopViewModel.constructor | app/src/main/java/com/example/ecommerceapp/presentation/Shop/ShopViewModel.kt:21-53 | the instance starts loading with no products, no filter, no query, no sort and no delivery yet |
| LegacyShop.LegacyShopViewModel.LoadProducts | app/src/main/java/com/example/ecommerceapp/presentation/Shop/ShopViewModel.kt:57-61 | once products have been delivered, only a forced reload starts a load; a started load sets loading and clears the error |
| LegacyShop.LegacyShopViewModel.OnProductsDelivered | app/src/main/java/com/example/ecommerceapp/presentation/Shop/ShopViewModel.kt:68-91 | the list becomes the non-null products in snapshot order, each taking its key as id when it has none, with their stored flags; loading ends and the delivery is remembered |
| LegacyShop.LegacyShopViewModel.OnCancelled | app/src/main/java/com/example/ecommerceapp/presentation/Shop/ShopViewModel.kt:93-100 | a cancelled listener ends loading with the database's message as the error |
| LegacyShop.LegacyShopViewModel.SetFilterCategory | app/src/main/java/com/example/ecommerceapp/presentation/Shop/ShopViewModel.kt:113-115 | only the category changes |
| LegacyShop.LegacyShopViewModel.SetSearchQuery | app/src/main/java/com/example/ecommerceapp/presentation/Shop/ShopViewModel.kt:117-119 | only the query changes |
| LegacyShop.LegacyShopViewModel.SetSortOrder | app/src/main/java/com/example/ecommerceapp/presentation/Shop/ShopViewModel.kt:121-123 | only the sort changes |
| LegacyShop.LegacyShopViewModel.ResetSort | app/src/main/java/com/example/ecommerceapp/presentation/Shop/ShopViewModel.kt:125-127 | only the sort changes, back to none |
| LegacyShop.LegacyShopViewModel.FilteredAndSortedProducts | app/src/main/java/com/example/ecommerceapp/presentation/Shop/ShopViewModel.kt:129-161 | returns the same query as the current shop, which holds exactly the selected products, and changes nothing |
| LegacyShop.LegacyShopViewModel.ToggleFavorite | app/src/main/java/com/example/ecommerceapp/presentation/Shop/ShopViewModel.kt:163-207 | an unknown id changes nothing. Otherwise the flag flips at once, and the favourite is stored or removed when that write succeeds. The product's `favorite` flag is written only after it. If either write fails, the flags of the products with the id are set back |
| ShopScreenState.ShopScreen.constructor | app/src/main/java/com/example/ecommerceapp/presentation/shop/ShopScreen.kt:78-81 | the remembered chip and search text start from the view model's state |
| ShopScreenState.ShopScreen.TapCategoryChip | app/src/main/java/com/example/ecommerceapp/presentation/shop/ShopScreen.kt:206-213 | the screen and the view model, with its stored settings, take the same new selection: cleared for the selected chip, the chip otherwise. The category effect then reloads the products (`reloads`, loading on, no error) exactly when the selection changed and the list was not empty (effect at lines 61-66) |
| ShopScreenState.ShopScreen.ChangeQuery | app/src/main/java/com/example/ecommerceapp/presentation/shop/ShopScreen.kt:88-91 | the typed text becomes the query in the screen and in the view model. The query effect reloads the products exactly when the text changed, has at least two characters and the list was not empty (effect at lines 68-73) |
| ShopScreenState.ShopScreen.CloseSearch | app/src/main/java/com/example/ecommerceapp/presentation/shop/ShopScreen.kt:92-99 | closing the search bar clears a non-empty query in both places; an empty one is left alone. The cleared query is below the reload threshold, so no reload starts: loading, error and products stay (effect at lines 68-73) |
| ShopScreenState.ShopScreen.RunEffects | app/src/main/java/com/example/ecommerceapp/presentation/shop/ShopScreen.kt:53-73 | after a handler, the sort and category effects reload the products when their key changed and the list is not empty, and the query effect when the query changed, has at least two characters and the list is not empty; a reload sets loading and clears the error, and nothing else changes |
| ShopScreenState.ShopScreen.SelectSortOrder | app/src/main/java/com/example/ecommerceapp/presentation/shop/ShopScreen.kt:273-276 | the chosen order becomes the view model's order and is stored; the products reload exactly when the order changed and the list was not empty (effect at lines 53-58) |
| ShopScreenState.ShopScreen.ResetSortOrder | app/src/main/java/com/example/ecommerceapp/presentation/shop/ShopScreen.kt:277-280 | the order returns to unsorted and is stored; the products reload exactly when an order was set and the list was not empty (effect at lines 53-58) |
| ShopScreenState.ShopScreen.ClearAllFilters | app/src/main/java/com/example/ecommerceapp/presentation/shop/ShopScreen.kt:314-321 | query, category and sort are cleared in the screen, the view model and the stored settings; the products stay. The effects reload the products exactly when the category or the sort was set and the list was not empty (effect at lines 53-66) |
| ShopScreenState.ClearedQueryShowsAll | app/src/main/java/com/example/ecommerceapp/presentation/shop/ShopScreen.kt:312-321 | after clearing, the query shows the whole catalogue in its stored order |
| Model.NewCartItem | app/src/main/java/com/example/ecommerceapp/model/CartItemModel.kt:3-15 | a new cart line carries the product's id and price and the quantity asked for, and its subtotal is the price times the quantity |
| ProductDetail.CheckStock | app/src/main/java/com/example/ecommerceapp/presentation/shop/productDetail/ProductDetailViewModel.kt:100-119 | the check passes exactly when there is a product and the quantity does not exceed the stock. Only the error message changes: it is cleared on a pass and names the stock left on a failure. Without a product nothing changes |
| ProductDetail.StockOf | app/src/main/java/com/example/ecommerceapp/presentation/shop/productDetail/ProductDetailViewModel.kt:126 | a missing stock reads as 0, a stored one as itself |
| ProductDetail.NewestFirstCorrect | app/src/main/java/com/example/ecommerceapp/presentation/shop/productDetail/ProductDetailViewModel.kt:159-172 | the comments shown are the delivered non-null ones, newest first; comments with the same timestamp keep their delivered order |
| ProductDetail.ConvertOne | app/src/main/java/com/example/ecommerceapp/presentation/shop/productDetail/ProductDetailViewModel.kt:236-260 | a pick gives an attachment exactly when it could be encoded. It is a video exactly when its type, "image/jpeg" when unknown, starts with "video/". A video is its own thumbnail and an image has none |
| ProductDetail.ConvertEach | app/src/main/java/com/example/ecommerceapp/presentation/shop/productDetail/ProductDetailViewModel.kt:236-261 | every attachment comes from one of the picks, there are never more of them than picks, and there is one per pick when every pick converts |
| ProductDetail.ConvertMediaBounds | app/src/main/java/com/example/ecommerceapp/presentation/shop/productDetail/ProductDetailViewModel.kt:234-263 | at most three attachments, each from one of the first three picks, and all of those when every pick converts |
| ProductDetail.UserName | app/src/main/java/com/example/ecommerceapp/presentation/shop/productDetail/ProductDetailViewModel.kt:472-484 | the stored name when one reads as text; otherwise, or when the read fails, the account's display name, else "User 101" |
| ProductDetail.ProfileImageUrl | app/src/main/java/com/example/ecommerceapp/presentation/shop/productDetail/ProductDetailViewModel.kt:486-495 | the stored picture when one reads as text, "" when none is stored; only a failed read falls back to the account's photo, else "" |
| ProductDetail.ReviewRecord | app/src/main/java/com/example/ecommerceapp/presentation/shop/productDetail/ProductDetailViewModel.kt:202-210 | the review carries the user's id, the rating, the comment, the time, the name and picture found as above, and at most three attachments |
| ProductDetail.RatingValues | app/src/main/java/com/example/ecommerceapp/presentation/shop/productDetail/ProductDetailViewModel.kt:293-304 | the ratings are read exactly when every child reads as an `Int`, one value per child in order |
| ProductDetail.MeanRating | app/src/main/java/com/example/ecommerceapp/presentation/shop/productDetail/ProductDetailViewModel.kt:307-311 | the mean times the number of ratings is their sum; with no ratings the new rating alone is used |
| ProductDetail.MeanRatingWithinScale | app/src/main/java/com/example/ecommerceapp/presentation/shop/productDetail/ProductDetailViewModel.kt:307-321 | when every rating is on one scale, the mean and the whole number shown for it stay on that scale |
| ProductDetail.AverageRating | app/src/main/java/com/example/ecommerceapp/presentation/shop/productDetail/ProductDetailViewModel.kt:294-311 | the loop reads every rating exactly when all of them are integers, counts them, and returns their mean |
| ProductDetail.ProductDetailViewModel.constructor | app/src/main/java/com/example/ecommerceapp/presentation/shop/productDetail/ProductDetailViewModel.kt:38-71 | the screen starts loading, with quantity 1, no product, no size, stock 0 and no review by the user |
| ProductDetail.ProductDetailViewModel.CheckIfUserHasReviewed | app/src/main/java/com/example/ecommerceapp/presentation/shop/productDetail/ProductDetailViewModel.kt:73-82 | the flag is whether the user's review exists; a failed read leaves it |
| ProductDetail.ProductDetailViewModel.OnProductDelivered | app/src/main/java/com/example/ecommerceapp/presentation/shop/productDetail/ProductDetailViewModel.kt:337-357 | a delivered product is shown under its key with the error cleared; a missing one gives "Product not found"; loading ends |
| ProductDetail.ProductDetailViewModel.OnProductCancelled | app/src/main/java/com/example/ecommerceapp/presentation/shop/productDetail/ProductDetailViewModel.kt:359-366 | a cancelled listener ends loading with the database's message |
| ProductDetail.ProductDetailViewModel.OnCommentsDelivered | app/src/main/java/com/example/ecommerceapp/presentation/shop/productDetail/ProductDetailViewModel.kt:161-172 | the list becomes the non-null comments, newest first, stably |
| ProductDetail.ProductDetailViewModel.ValidatePickedSize | app/src/main/java/com/example/ecommerceapp/presentation/shop/productDetail/ProductDetailViewModel.kt:84-93 | passes exactly when a size is chosen; otherwise "Please select a size" is the error and nothing else changes |
| ProductDetail.ProductDetailViewModel.SelectSize | app/src/main/java/com/example/ecommerceapp/presentation/shop/productDetail/ProductDetailViewModel.kt:95-97 | only the chosen size changes |
| ProductDetail.ProductDetailViewModel.ValidateStock | app/src/main/java/com/example/ecommerceapp/presentation/shop/productDetail/ProductDetailViewModel.kt:100-119 | returns and applies `CheckStock` |
| ProductDetail.ProductDetailViewModel.RefreshStockData | app/src/main/java/com/example/ecommerceapp/presentation/shop/productDetail/ProductDetailViewModel.kt:122-141 | a read stock, missing as 0, replaces the known one, is checked against the quantity and is handed to the callback; a failed read changes nothing |
| ProductDetail.ProductDetailViewModel.IncrementQuantity | app/src/main/java/com/example/ecommerceapp/presentation/shop/productDetail/ProductDetailViewModel.kt:143-156 | after the stock refresh, the quantity grows by one only while it is below the stock, and otherwise the error names the stock. The quantity never passes the stock by growing |
| ProductDetail.ProductDetailViewModel.DecrementQuantity | app/src/main/java/com/example/ecommerceapp/presentation/shop/productDetail/ProductDetailViewModel.kt:371-375 | the quantity drops by one but never below 1 |
| ProductDetail.ProductDetailViewModel.UpdateProductRating | app/src/main/java/com/example/ecommerceapp/presentation/shop/productDetail/ProductDetailViewModel.kt:290-330 | the mean of all stored ratings becomes the product's rating, then their number its review count. The product on screen shows the mean truncated. A failed read or write stops the update where it happened, without a message |
| ProductDetail.ProductDetailViewModel.SubmitRatingWithComment | app/src/main/java/com/example/ecommerceapp/presentation/shop/productDetail/ProductDetailViewModel.kt:180-231 | nothing without a product, and a second review is refused. Otherwise the rating, then the review record, are written and the user is marked as having reviewed. A failed rating or review write reports "Failed to submit review: " and leaves the flag. After both writes, the product's stored rating becomes the mean of the ratings read back (`MeanRating`) once that write succeeds. The stored review count becomes their number, and the product on screen shows the truncated mean and that count, once the count write also succeeds. A failed read or write in that summary leaves the rest as it was, and the review still counts as submitted |
| ProductDetail.ProductDetailViewModel.ToggleFavorite | app/src/main/java/com/example/ecommerceapp/presentation/shop/productDetail/ProductDetailViewModel.kt:377-423 | the flag flips at once. The favourites entry is added or removed, then the product's flag is written. Only when both writes succeed does the flip stay, with a message saying which way it went; a failure restores the product and reports it |
| ProductDetail.ProductDetailViewModel.AddToCart | app/src/main/java/com/example/ecommerceapp/presentation/shop/productDetail/ProductDetailViewModel.kt:425-465 | without a size only "Please select a size" is set. Otherwise the cart line of the product, quantity and size is stored, with a message giving the quantity, or the failure is reported and nothing is stored |
| ProductDetail.ProductDetailViewModel.ClearActionMessage | app/src/main/java/com/example/ecommerceapp/presentation/shop/productDetail/ProductDetailViewModel.kt:467-469 | only the action message is cleared |
| LegacyProductDetail.RunningAverage | app/src/main/java/com/example/ecommerceapp/presentation/Shop/ProductDetail/ProductDetailViewModel.kt:157-159 | the new average is `(rating * count + new) / (count + 1)`, truncated as `Int` division is, and the count grows by one; the division fails exactly when the stored count is -1 |
| LegacyProductDetail.RunningAverageWithinScale | app/src/main/java/com/example/ecommerceapp/presentation/Shop/ProductDetail/ProductDetailViewModel.kt:157-159 | with the stored average and the new rating on one scale and a count that is not negative, the new average stays on the scale and never exceeds the exact mean |
| LegacyProductDetail.FirstRatingIsAverage | app/src/main/java/com/example/ecommerceapp/presentation/Shop/ProductDetail/ProductDetailViewModel.kt:157-159 | the first rating of a product without reviews becomes its average, with count 1 |
| LegacyProductDetail.LegacyProductDetailViewModel.constructor | app/src/main/java/com/example/ecommerceapp/presentation/Shop/ProductDetail/ProductDetailViewModel.kt:25-47 | the screen starts loading, with quantity 1 and no product |
| LegacyProductDetail.LegacyProductDetailViewModel.OnProductDelivered | app/src/main/java/com/example/ecommerceapp/presentation/Shop/ProductDetail/ProductDetailViewModel.kt:53-74 | a delivered product is shown under its key; a missing one gives "Product not found"; loading ends |
| LegacyProductDetail.LegacyProductDetailViewModel.OnProductCancelled | app/src/main/java/com/example/ecommerceapp/presentation/Shop/ProductDetail/ProductDetailViewModel.kt:75-82 | a cancelled listener ends loading with the database's message |
| LegacyProductDetail.LegacyProductDetailViewModel.IncrementQuantity | app/src/main/java/com/example/ecommerceapp/presentation/Shop/ProductDetail/ProductDetailViewModel.kt:86-88 | the quantity grows by one, with no upper bound |
| LegacyProductDetail.LegacyProductDetailViewModel.DecrementQuantity | app/src/main/java/com/example/ecommerceapp/presentation/Shop/ProductDetail/ProductDetailViewModel.kt:90-94 | the quantity drops by one but never below 1 |
| LegacyProductDetail.LegacyProductDetailViewModel.ToggleFavorite | app/src/main/java/com/example/ecommerceapp/presentation/Shop/ProductDetail/ProductDetailViewModel.kt:96-142 | the flag flips at once. The favourites entry is added or removed, then the product's `isFavorite` child is written. Only when both writes succeed does the flip stay, with a message; a failure restores the product and reports it |
| LegacyProductDetail.LegacyProductDetailViewModel.SubmitRating | app/src/main/java/com/example/ecommerceapp/presentation/Shop/ProductDetail/ProductDetailViewModel.kt:144-186 | the user's rating is stored, then the running average and count replace the product's, on screen too, with a thank-you. A failed write, or the division by zero, reports "Failed to submit rating: " with the error |
| LegacyProductDetail.LegacyProductDetailViewModel.AddToCart | app/src/main/java/com/example/ecommerceapp/presentation/Shop/ProductDetail/ProductDetailViewModel.kt:188-222 | the cart line of the product and quantity, without a size, is stored with a message giving the quantity, or the failure is reported and nothing is stored |
| LegacyProductDetail.LegacyProductDetailViewModel.ClearActionMessage | app/src/main/java/com/example/ecommerceapp/presentation/Shop/ProductDetail/ProductDetailViewModel.kt:224-226 | only the action message is cleared |
| Cart.TotalsFor | app/src/main/java/com/example/ecommerceapp/presentation/cart/CartViewModel.kt:65-68 | the tax is a tenth of the subtotal, shipping is 4.99 on a positive subtotal and 0 otherwise, and the total is the sum of the three |
| Cart.EmptyCartTotals | app/src/main/java/com/example/ecommerceapp/presentation/cart/CartViewModel.kt:65-68 | an empty cart costs nothing, not even shipping |
| Cart.TotalsShape | app/src/main/java/com/example/ecommerceapp/presentation/cart/CartViewModel.kt:65-68 | with no negative price or quantity the subtotal is not negative and the total is at least the subtotal; a positive subtotal pays 110% of itself plus the fee |
| Cart.SubtotalNonNegative | app/src/main/java/com/example/ecommerceapp/presentation/cart/CartViewModel.kt:65 | lines with no negative price or quantity add up to a subtotal that is not negative |
| Cart.SubtotalConcat | app/src/main/java/com/example/ecommerceapp/presentation/cart/CartViewModel.kt:65 | the subtotal of two lists of lines joined is the sum of their subtotals |
| Cart.SubtotalPermutation | app/src/main/java/com/example/ecommerceapp/presentation/cart/CartViewModel.kt:65 | the subtotal does not depend on the order of the lines |
| Cart.DeliveredLines | app/src/main/java/com/example/ecommerceapp/presentation/cart/CartViewModel.kt:54-62 | there are never more lines than children of the cart node |
| Cart.DisplayedTotals | app/src/main/java/com/example/ecommerceapp/presentation/cart/CartViewModel.kt:65-79 | the displayed list holds the same lines, newest first, and its totals are the ones computed before sorting |
| Cart.CartViewModel.constructor | app/src/main/java/com/example/ecommerceapp/presentation/cart/CartViewModel.kt:24-47 | the screen starts loading, with no lines, no messages and zero totals |
| Cart.CartViewModel.OnCartDelivered | app/src/main/java/com/example/ecommerceapp/presentation/cart/CartViewModel.kt:53-81 | the lines become the non-null children, each with its key as id, newest first; the totals are those of these lines; loading ends and the error is cleared |
| Cart.CartViewModel.OnCartCancelled | app/src/main/java/com/example/ecommerceapp/presentation/cart/CartViewModel.kt:83-90 | a cancelled listener ends loading with the database's message |
| Cart.CartViewModel.UpdateQuantity | app/src/main/java/com/example/ecommerceapp/presentation/cart/CartViewModel.kt:94-118 | a quantity of zero or less removes the line, as `RemoveCartItem` does. Otherwise a successful write changes only the stored quantity, creating a bare line when none is stored, and says "Quantity updated"; a failed write only reports it |
| Cart.CartViewModel.RemoveCartItem | app/src/main/java/com/example/ecommerceapp/presentation/cart/CartViewModel.kt:120-139 | a successful removal drops the line and says so; a failed one only reports it |
| Cart.CartViewModel.ClearCart | app/src/main/java/com/example/ecommerceapp/presentation/cart/CartViewModel.kt:141-160 | a successful write empties the cart and says "Cart cleared"; a failed one only reports it |
| Cart.CartViewModel.ClearActionMessage | app/src/main/java/com/example/ecommerceapp/presentation/cart/CartViewModel.kt:162-164 | only the action message is cleared |
| Checkout.PaymentNamesDistinct | app/src/main/java/com/example/ecommerceapp/presentation/Order/OrderViewModel.kt:27-36 | both the display label and the stored enum name of a payment method identify it: equal names iff equal methods |
| Checkout.AddressById | app/src/main/java/com/example/ecommerceapp/presentation/Order/OrderViewModel.kt:138-154 | the address is found iff the read succeeds and the id is stored. It then carries the requested id and the stored name, phone, street, city, state and zip code, and its default flag is always false, because the class decode never reads the stored `isDefault` child |
| Checkout.OrderViewModel.constructor | app/src/main/java/com/example/ecommerceapp/presentation/Order/OrderViewModel.kt:67-69 | the screen starts in its initial state over the given store |
| Checkout.OrderViewModel.LoadCartItems | app/src/main/java/com/example/ecommerceapp/presentation/Order/OrderViewModel.kt:71-113 | a load while one is running is ignored unless forced; otherwise the cart's non-null lines in stored order with their totals, or the "Failed to load cart items: " message; the store is untouched |
| Checkout.OrderViewModel.RecalculateOrderTotals | app/src/main/java/com/example/ecommerceapp/presentation/Order/OrderViewModel.kt:115-130 | the totals become the cart totals of the displayed lines and nothing else changes |
| Checkout.OrderViewModel.SelectPaymentMethod | app/src/main/java/com/example/ecommerceapp/presentation/Order/OrderViewModel.kt:132-136 | only the selected method changes |
| Checkout.OrderViewModel.PlaceOrder | app/src/main/java/com/example/ecommerceapp/presentation/Order/OrderViewModel.kt:289-390 | an empty cart is refused with "Your cart is empty"; an address that cannot be read gives "Failed to retrieve address" and writes nothing; otherwise the order record (lines, shown totals, enum name, "PENDING", address, time) is written under the new id, the cart is removed, and cash or Google Pay ends with "Order placed successfully!" while ZaloPay stays processing with the order id; a failed write or removal gives "Failed to place order: " |
| Checkout.OrderViewModel.InitiateZaloPayPayment | app/src/main/java/com/example/ecommerceapp/presentation/Order/OrderViewModel.kt:393-398 | the payment request is the current order id with the displayed total, and nothing before an order exists |
| Checkout.OrderViewModel.ClearActionMessage | app/src/main/java/com/example/ecommerceapp/presentation/Order/OrderViewModel.kt:402-404 | only the action message is cleared |
| Checkout.PlacedOrderAsSeenInHistory | app/src/main/java/com/example/ecommerceapp/presentation/Order/OrderViewModel.kt:320-347 | a placed order read back by the history screen parses, is "PENDING" and unconfirmed, has the cart's totals and method name, and has the same lines with the same product, quantity and price |
| OrderRecords.ParseItem | app/src/main/java/com/example/ecommerceapp/presentation/profile/OrderHistory/OrderHistoryViewModel.kt:171-181 | an order line takes each missing field's default (quantity 0, price 0.0, the reader's placeholder for product id, "N/A" size) and fails only when some field holds a value of the wrong type |
| OrderRecords.ParseItems | app/src/main/java/com/example/ecommerceapp/presentation/profile/OrderHistory/OrderHistoryViewModel.kt:169-181 | the lines parse iff every child parses, and then they are those parses, one per child, in order |
| OrderRecords.ParsePayment | app/src/main/java/com/example/ecommerceapp/presentation/profile/OrderHistory/OrderHistoryViewModel.kt:187-199 | with no paymentDetails node the record holds only the root method or "UNKNOWN"; the user id is never read |
| OrderRecords.ParseAddress | app/src/main/java/com/example/ecommerceapp/presentation/profile/OrderHistory/OrderHistoryDetailViewModel.kt:97-118 | no stored address gives the empty address; the history and admin readers keep only name, street and city |
| OrderRecords.ParseOrderOf | app/src/main/java/com/example/ecommerceapp/presentation/profile/OrderHistory/OrderHistoryViewModel.kt:165-242 | a parsed order carries its key, one line per stored child, the stored status or "UNKNOWN", timestamp 0 and total 0.0 when missing, the payment and address parses, and an admin flag that only the history reader reads |
| OrderRecords.OrderWithItems | app/src/main/java/com/example/ecommerceapp/presentation/profile/OrderHistory/OrderHistoryViewModel.kt:183-237 | the order's header fields take the stored values or their defaults around the given lines |
| OrderRecords.ParseOrder | app/src/main/java/com/example/ecommerceapp/presentation/profile/OrderHistory/OrderHistoryDetailViewModel.kt:64-143 | the loop over the lines returns exactly the order the record describes, or nothing when any read throws |
| OrderRecords.ParsedOrders | app/src/main/java/com/example/ecommerceapp/presentation/profile/OrderHistory/OrderHistoryViewModel.kt:146-154 | the loaded list never holds more orders than there are children |
| OrderRecords.Kept | app/src/main/java/com/example/ecommerceapp/presentation/profile/OrderHistory/OrderHistoryViewModel.kt:150-153 | a child contributes its order iff it parses, and nothing otherwise |
| OrderRecords.ParsedOrdersExactly | app/src/main/java/com/example/ecommerceapp/presentation/profile/OrderHistory/OrderHistoryViewModel.kt:146-154 | the loaded list holds exactly the orders that parse among the children: every kept order comes from a child and every parsable child is kept |
| OrderRecords.ParsedOrdersStep | app/src/main/java/com/example/ecommerceapp/presentation/profile/OrderHistory/OrderHistoryViewModel.kt:147-154 | reading one more child appends exactly that child's contribution |
| OrderRecords.ParsedOrdersAppend | app/src/main/java/com/example/ecommerceapp/presentation/profile/OrderHistory/OrderHistoryViewModel.kt:147-154 | the list for a longer snapshot is the list for the prefix followed by the last child's contribution |
| OrderRecords.PlacedItems | app/src/main/java/com/example/ecommerceapp/presentation/Order/OrderViewModel.kt:321-333 | the placed lines are stored as one child per cart line, in order, each holding that line's fields |
| OrderRecords.ReadBackItems | app/src/main/java/com/example/ecommerceapp/presentation/profile/OrderHistory/OrderHistoryViewModel.kt:169-181 | the lines a reader sees for a placed order are as many as the cart lines |
| OrderRecords.PlacedItemReadBack | app/src/main/java/com/example/ecommerceapp/presentation/profile/OrderHistory/OrderHistoryViewModel.kt:171-181 | a placed line reads back with its own brand, image, name, price, product and quantity and the reader's default size |
| OrderRecords.PlacedItemsReadBack | app/src/main/java/com/example/ecommerceapp/presentation/profile/OrderHistory/OrderHistoryViewModel.kt:169-181 | all placed lines read back, in order |
| OrderRecords.PlacedAddressReadBack | app/src/main/java/com/example/ecommerceapp/presentation/profile/OrderHistory/OrderHistoryDetailViewModel.kt:97-118 | a placed address reads back whole for the detail screen and as name, street and city for the others |
| OrderRecords.PlacedOrderReadBack | app/src/main/java/com/example/ecommerceapp/presentation/profile/OrderHistory/OrderHistoryViewModel.kt:165-242 | every reader gets back what checkout wrote: lines, the four totals, the method name, "PENDING", the time, and not yet confirmed |
| OrderRecords.PlacedOrderTotals | app/src/main/java/com/example/ecommerceapp/presentation/Order/OrderViewModel.kt:320-347 | the placed record holds the lines and the four totals under their keys |
| OrderRecords.PlacedOrderHeader | app/src/main/java/com/example/ecommerceapp/presentation/Order/OrderViewModel.kt:320-347 | the placed record holds the method name, "PENDING", the address and the time, and neither payment details nor an admin flag |
| OrderHistory.Toggled | app/src/main/java/com/example/ecommerceapp/presentation/profile/OrderHistory/OrderHistoryViewModel.kt:40-45 | toggling always gives the other sort order |
| OrderHistory.SortOrdersCorrect | app/src/main/java/com/example/ecommerceapp/presentation/profile/OrderHistory/OrderHistoryViewModel.kt:48-53 | the sorted list is a permutation of the orders with timestamps falling for newest first and rising for oldest first, and orders with equal timestamps keep their relative order |
| OrderHistory.ReadCount | app/src/main/java/com/example/ecommerceapp/presentation/profile/OrderHistory/OrderHistoryViewModel.kt:92 | a counter that is not stored reads as absent |
| OrderHistory.ReducedStock | app/src/main/java/com/example/ecommerceapp/presentation/profile/OrderHistory/OrderHistoryViewModel.kt:93 | the new stock is `maxOf(0, stock - quantity)`: stock minus quantity when that is positive, 0 otherwise, whenever the difference fits an `Int`; it is never negative |
| OrderHistory.ReceiveLine | app/src/main/java/com/example/ecommerceapp/presentation/profile/OrderHistory/OrderHistoryViewModel.kt:85-105 | a line without a product id is skipped. Otherwise that product's stock is written as `ReducedStock` of the stored stock (0 when missing) and the line's quantity (1 when missing), unless a read before it or the stock write throws; its purchase count becomes the stored count (0 when missing) plus one unless something throws. No other product's counters change, and the step fails iff a read or a write throws |
| OrderHistory.ReceiveLinesAppend | app/src/main/java/com/example/ecommerceapp/presentation/profile/OrderHistory/OrderHistoryViewModel.kt:85-105 | one more line continues from the counters the previous lines left |
| OrderHistory.ReceiveLinesFailedPrefix | app/src/main/java/com/example/ecommerceapp/presentation/profile/OrderHistory/OrderHistoryViewModel.kt:85-105 | the loop ends at the first line whose read or write throws, keeping the earlier writes |
| OrderHistory.ReceiveLinesSuffix | app/src/main/java/com/example/ecommerceapp/presentation/profile/OrderHistory/OrderHistoryViewModel.kt:85-105 | once a read or write has thrown, later lines change nothing |
| OrderHistory.ReceivedStocksNonNegative | app/src/main/java/com/example/ecommerceapp/presentation/profile/OrderHistory/OrderHistoryViewModel.kt:85-105 | marking an order received never writes a negative stock: each counter is as it was or a non-negative number |
| OrderHistory.BuyCountPerLine | app/src/main/java/com/example/ecommerceapp/presentation/profile/OrderHistory/OrderHistoryViewModel.kt:98-102 | when no read or write throws, a product's purchase count rises by exactly the number of lines naming it, whatever their quantities; products no line names keep their count |
| OrderHistory.OrderHistoryViewModel.constructor | app/src/main/java/com/example/ecommerceapp/presentation/profile/OrderHistory/OrderHistoryViewModel.kt:35-37 | the screen starts newest first and loads the orders at once |
| OrderHistory.OrderHistoryViewModel.ToggleSortOrder | app/src/main/java/com/example/ecommerceapp/presentation/profile/OrderHistory/OrderHistoryViewModel.kt:40-45 | only the sort order changes, to the other one |
| OrderHistory.OrderHistoryViewModel.LoadOrders | app/src/main/java/com/example/ecommerceapp/presentation/profile/OrderHistory/OrderHistoryViewModel.kt:131-163 | without a user nothing happens; otherwise the list is exactly the orders that parse, or the "Failed to load orders: " message with an empty list |
| OrderHistory.OrderHistoryViewModel.MarkOrderAsReceived | app/src/main/java/com/example/ecommerceapp/presentation/profile/OrderHistory/OrderHistoryViewModel.kt:56-128 | an order not confirmed by an admin is refused with its message and nothing is written. A confirmed one updates the counters line by line, becomes "PAID" and the list is reloaded. A read or an awaited write (stock, purchase count or status) that throws stops there with "Failed to update order: ", keeping the list shown and the writes already made. A reload that fails empties the list with "Failed to load orders: " (`loadOrders` at lines 131-162) |
| OrderHistory.ReceivedOrderIsPaid | app/src/main/java/com/example/ecommerceapp/presentation/profile/OrderHistory/OrderHistoryViewModel.kt:108-114 | after marking, the order reads back with status "PAID" |
| OrderHistoryScreen.Day | app/src/main/java/com/example/ecommerceapp/presentation/profile/OrderHistory/OrderHistoryScreen.kt:65-67 | the calendar day of an instant is the one whose 24 hours contain it, in a zone at a fixed offset |
| OrderHistoryScreen.FilterByDateCorrect | app/src/main/java/com/example/ecommerceapp/presentation/profile/OrderHistory/OrderHistoryScreen.kt:60-77 | with no bound the list is unchanged; otherwise it keeps, in order, exactly the orders whose day lies in the range, both bounds included |
| OrderHistoryScreen.DateRangeText | app/src/main/java/com/example/ecommerceapp/presentation/profile/OrderHistory/OrderHistoryScreen.kt:96-114 | the label is "start - end", "From start", "Until end" or "All Orders" according to which bounds are set |
| OrderHistoryScreen.ScreenContent | app/src/main/java/com/example/ecommerceapp/presentation/profile/OrderHistory/OrderHistoryScreen.kt:227-242 | an error shows first; an empty result shows "no orders yet" exactly when the user has none, and "none in range" only when the filter removed them all; otherwise the sorted filtered list |
| OrderHistoryScreen.NoBoundNeverEmpties | app/src/main/java/com/example/ecommerceapp/presentation/profile/OrderHistory/OrderHistoryScreen.kt:60-63 | with no date bound, a user who has orders always sees the list |
| OrderHistoryScreen.TotalItems | app/src/main/java/com/example/ecommerceapp/presentation/profile/OrderHistory/OrderHistoryScreen.kt:558 | the card's item count is the quantities' sum in Kotlin Int and so lies in its range |
| OrderHistoryScreen.TotalItemsBounds | app/src/main/java/com/example/ecommerceapp/presentation/profile/OrderHistory/OrderHistoryScreen.kt:558 | with quantities between 0 and a bound and no overflow, the count is the plain sum and at most the bound times the number of lines |
| OrderHistoryScreen.FirstLineCaption | app/src/main/java/com/example/ecommerceapp/presentation/profile/OrderHistory/OrderHistoryScreen.kt:559-567 | no caption without lines; the first line's name alone for one line, else followed by "and k more item(s)" for the k other lines |
| OrderHistoryScreen.FormatTimestamp | app/src/main/java/com/example/ecommerceapp/presentation/profile/OrderHistory/OrderHistoryScreen.kt:695-701 | time 0 reads "N/A", any other time is formatted |
| OrderHistoryScreen.UntimedOrderShowsNA | app/src/main/java/com/example/ecommerceapp/presentation/profile/OrderHistory/OrderHistoryScreen.kt:696 | an order stored without a timestamp shows "N/A" |
| OrderHistoryScreen.DateRangeState.constructor | app/src/main/java/com/example/ecommerceapp/presentation/profile/OrderHistory/OrderHistoryScreen.kt:56-57 | the screen starts with no date bound |
| OrderHistoryScreen.DateRangeState.Apply | app/src/main/java/com/example/ecommerceapp/presentation/profile/OrderHistory/OrderHistoryScreen.kt:304-318 | each bound becomes the picked day, or none when nothing was picked |
| OrderHistoryScreen.DateRangeState.Clear | app/src/main/java/com/example/ecommerceapp/presentation/profile/OrderHistory/OrderHistoryScreen.kt:208-213 | both bounds are cleared and afterwards every order shows |
| OrderDetail.OrderDetailViewModel.constructor | app/src/main/java/com/example/ecommerceapp/presentation/profile/OrderHistory/OrderHistoryDetailViewModel.kt:22-23 | the screen starts with no order, not loading, no error |
| OrderDetail.OrderDetailViewModel.LoadOrderDetails | app/src/main/java/com/example/ecommerceapp/presentation/profile/OrderHistory/OrderHistoryDetailViewModel.kt:25-62 | "User not logged in", "Order not found", "Failed to parse order data" or "Error: " replace the state, and otherwise the parsed order alone with the requested id is shown |
| OrderDetail.DetailShowsPlacedOrder | app/src/main/java/com/example/ecommerceapp/presentation/profile/OrderHistory/OrderHistoryDetailViewModel.kt:64-143 | the detail screen reads a placed order with its whole address, the stored method name and lines without a size |
| AdminOrders.AllOrderEntriesMembers | app/src/main/java/com/example/ecommerceapp/presentation/manageOrder/ManageOrderViewModel.kt:50-52 | an order node is visited iff some user holds it |
| AdminOrders.AllOrderEntriesAppend | app/src/main/java/com/example/ecommerceapp/presentation/manageOrder/ManageOrderViewModel.kt:50-61 | one more user's orders are visited after all earlier users' |
| AdminOrders.Picked | app/src/main/java/com/example/ecommerceapp/presentation/manageOrder/ManageOrderViewModel.kt:53-58 | a node adds its parse when its status is the one sought, nothing for any other status, and fails the whole load when the status is not a string |
| AdminOrders.CollectFails | app/src/main/java/com/example/ecommerceapp/presentation/manageOrder/ManageOrderViewModel.kt:47-61 | the load fails iff some node's status is not a string |
| AdminOrders.CollectExactly | app/src/main/java/com/example/ecommerceapp/presentation/manageOrder/ManageOrderViewModel.kt:47-61 | a successful load holds exactly the parsable orders whose stored status is the one sought, so each carries that status |
| AdminOrders.CollectAppend | app/src/main/java/com/example/ecommerceapp/presentation/manageOrder/ManageOrderViewModel.kt:52-59 | one more node appends exactly what it adds |
| AdminOrders.CollectFailsAt | app/src/main/java/com/example/ecommerceapp/presentation/manageOrder/ManageOrderViewModel.kt:53 | a bad status under any user fails the load |
| AdminOrders.NextUser | app/src/main/java/com/example/ecommerceapp/presentation/manageOrder/ManageOrderViewModel.kt:50-60 | one step of the outer loop appends the next user's orders |
| AdminOrders.CollectUserOrders | app/src/main/java/com/example/ecommerceapp/presentation/manageOrder/ManageOrderViewModel.kt:52-60 | the inner loop over one user's orders extends the collection so far exactly as the collection of the longer node list, and it fails only at a node whose status read throws |
| AdminOrders.CollectOrders | app/src/main/java/com/example/ecommerceapp/presentation/manageOrder/ManageOrderViewModel.kt:36-79 | the two nested loops compute exactly the collection of one status over every user |
| AdminOrders.PendingOrdersExactly | app/src/main/java/com/example/ecommerceapp/presentation/manageOrder/ManageOrderViewModel.kt:47-61 | the pending list is exactly the parsed "PENDING" orders of every user |
| AdminOrders.FirstHolder | app/src/main/java/com/example/ecommerceapp/presentation/manageOrder/ManageOrderViewModel.kt:91-97 | the search stops at the first user holding the order id, or past the end when none does |
| AdminOrders.ConfirmedOrder | app/src/main/java/com/example/ecommerceapp/presentation/manageOrder/ManageOrderViewModel.kt:108-114 | after confirming, the order reads as confirmed while its other fields and every other user are unchanged |
| AdminOrders.ConfirmedOrderInHistory | app/src/main/java/com/example/ecommerceapp/presentation/manageOrder/ManageOrderViewModel.kt:108-114 | a confirmed order reads as confirmed in the user's history and keeps its status |
| AdminOrders.ManageOrderViewModel.constructor | app/src/main/java/com/example/ecommerceapp/presentation/manageOrder/ManageOrderViewModel.kt:32-34 | the screen loads the pending orders at once: the list or the "Failed to load pending orders: " message |
| AdminOrders.ManageOrderViewModel.LoadPendingOrders | app/src/main/java/com/example/ecommerceapp/presentation/manageOrder/ManageOrderViewModel.kt:36-79 | a successful load replaces the list with every pending order and keeps any earlier error; a failure keeps the list and sets the error; the list only ever holds "PENDING" orders |
| AdminOrders.ManageOrderViewModel.ConfirmOrder | app/src/main/java/com/example/ecommerceapp/presentation/manageOrder/ManageOrderViewModel.kt:81-127 | the first user holding the order gets it confirmed and the list is reloaded; no holder gives "Failed to confirm order: User not found" and a failed read or write "Failed to confirm order: ", with nothing written |
| AdminOrders.ManageOrderViewModel.ClearErrorMessage | app/src/main/java/com/example/ecommerceapp/presentation/manageOrder/ManageOrderViewModel.kt:129-131 | only the error is cleared |
| Revenue.ShownExactly | app/src/main/java/com/example/ecommerceapp/presentation/revenueManage/RevenueManageViewModel.kt:62-67 | with both dates set the list keeps, in order, exactly the orders in the window; otherwise nothing is filtered |
| Revenue.EndDayIncluded | app/src/main/java/com/example/ecommerceapp/presentation/revenueManage/RevenueManageViewModel.kt:184-199 | orders in the 24 hours from the end instant are counted and later ones are not |
| Revenue.TotalRevenueSplit | app/src/main/java/com/example/ecommerceapp/presentation/revenueManage/RevenueManageViewModel.kt:70 | the revenue of the orders a filter keeps and of those it drops add up to the revenue of all of them |
| Revenue.TotalRevenueBounds | app/src/main/java/com/example/ecommerceapp/presentation/revenueManage/RevenueManageViewModel.kt:70 | with no negative total the revenue is non-negative and at least any one order's total |
| Revenue.PaidOrdersExactly | app/src/main/java/com/example/ecommerceapp/presentation/revenueManage/RevenueManageViewModel.kt:46-60 | the loaded orders are exactly the parsed "PAID" orders of every user |
| Revenue.RevenueViewModel.constructor | app/src/main/java/com/example/ecommerceapp/presentation/revenueManage/RevenueManageViewModel.kt:31-33 | the screen loads at once: every paid order with its revenue, or the "Failed to load orders: " message |
| Revenue.RevenueViewModel.LoadOrders | app/src/main/java/com/example/ecommerceapp/presentation/revenueManage/RevenueManageViewModel.kt:35-88 | a successful load shows the paid orders within the dates in force and their revenue; a failure keeps the list and sets the error; the revenue shown always equals that of the orders shown |
| Revenue.RevenueViewModel.SetDateRange | app/src/main/java/com/example/ecommerceapp/presentation/revenueManage/RevenueManageViewModel.kt:163-171 | both dates are set and loading ends. After a complete read the list becomes exactly the paid orders in the window, with their revenue, and the error is left as it was; after a failed one the list is kept and the error is "Failed to load orders: " plus the message |
| Revenue.RevenueViewModel.ClearDateFilter | app/src/main/java/com/example/ecommerceapp/presentation/revenueManage/RevenueManageViewModel.kt:174-182 | both dates are cleared and loading ends. After a complete read the list becomes every paid order, with their revenue, and the error is left as it was; after a failed one the list is kept and the error is "Failed to load orders: " plus the message |
| Revenue.RevenueViewModel.ClearErrorMessage | app/src/main/java/com/example/ecommerceapp/presentation/revenueManage/RevenueManageViewModel.kt:200-202 | only the error is cleared |
| AddressBook.ParseAddressNode | app/src/main/java/com/example/ecommerceapp/presentation/profile/UserAddress/AddressList/AddressListViewModel.kt:63-84 | an address node reads under its key with missing text as "" and a missing flag as false, and fails iff some field holds a value of the wrong type |
| AddressBook.ParseAddressList | app/src/main/java/com/example/ecommerceapp/presentation/profile/UserAddress/AddressList/AddressListViewModel.kt:61-85 | the list parses iff every node does, and then holds one address per node in snapshot order |
| AddressBook.SortAddressesCorrect | app/src/main/java/com/example/ecommerceapp/presentation/profile/UserAddress/AddressList/AddressListViewModel.kt:88-91 | the sorted list is a permutation of the parsed one with every default address first, names ascending within each group, and ties kept in order |
| AddressBook.SetFlagReads | app/src/main/java/com/example/ecommerceapp/presentation/profile/UserAddress/AddressList/AddressListViewModel.kt:146 | the written address reads the new flag; its other fields and every other address are unchanged |
| AddressBook.ClearFlagsReads | app/src/main/java/com/example/ecommerceapp/presentation/profile/UserAddress/AddressList/AddressListViewModel.kt:145-147 | after the loop every listed address reads as not default, unlisted ones are untouched, and no other field changes |
| AddressBook.ClearFlagsAppend | app/src/main/java/com/example/ecommerceapp/presentation/profile/UserAddress/AddressList/AddressListViewModel.kt:145-147 | clearing one more address continues from the store the earlier clears left |
| AddressBook.FirstInvalid | app/src/main/java/com/example/ecommerceapp/presentation/profile/UserAddress/AddressList/AddressListViewModel.kt:145-147 | the index of the first listed id that `child()` rejects: every earlier id is accepted, and the id there, if any, is rejected |
| AddressBook.DefaultSetReads | app/src/main/java/com/example/ecommerceapp/presentation/profile/UserAddress/AddressList/AddressListViewModel.kt:139-159 | afterwards the target reads as default, every other listed address as not default, unlisted ones are untouched, and no field but the flag changes |
| AddressBook.Ids | app/src/main/java/com/example/ecommerceapp/presentation/profile/UserAddress/AddressList/AddressListViewModel.kt:145 | the ids are those of the listed addresses, in order |
| AddressBook.AddressListViewModel.constructor | app/src/main/java/com/example/ecommerceapp/presentation/profile/UserAddress/AddressList/AddressListViewModel.kt:48-50 | the screen loads at once: the sorted list, the "Failed to load addresses: " message, or the cancellation's own message |
| AddressBook.AddressListViewModel.OnDataChange | app/src/main/java/com/example/ecommerceapp/presentation/profile/UserAddress/AddressList/AddressListViewModel.kt:59-110 | every redelivery replaces the list with the sorted parse, or keeps the list and sets the error when a node throws |
| AddressBook.AddressListViewModel.LoadAddresses | app/src/main/java/com/example/ecommerceapp/presentation/profile/UserAddress/AddressList/AddressListViewModel.kt:52-122 | the error is cleared, then the first delivery's sorted list, its error, or the cancellation's message is shown |
| AddressBook.AddressListViewModel.DeleteAddress | app/src/main/java/com/example/ecommerceapp/presentation/profile/UserAddress/AddressList/AddressListViewModel.kt:124-137 | the removal is started without waiting, so it stands: only that node goes and the state shown is kept. Only a key that `child()` rejects (one containing `.`, `#`, `$`, `[` or `]`) throws; then nothing is removed and "Failed to delete address: " appears |
| AddressBook.AddressListViewModel.ClearListed | app/src/main/java/com/example/ecommerceapp/presentation/profile/UserAddress/AddressList/AddressListViewModel.kt:145-147 | `false` is written for each listed id in order, stopping at the first id `child()` rejects; the stop index is that id's position, or the list length when every id is accepted |
| AddressBook.AddressListViewModel.SetDefaultAddress | app/src/main/java/com/example/ecommerceapp/presentation/profile/UserAddress/AddressList/AddressListViewModel.kt:139-158 | the clears of every displayed address and the final default write are started without waiting, so they all stand. Only a key that `child()` rejects (one containing `.`, `#`, `$`, `[` or `]`) throws: the clears before it stand, nothing after it is written, and the message "Failed to update default address: " appears. Otherwise every listed address reads non-default and the target default, and the state shown is kept |
| AddressBook.DeletedAddressGone | app/src/main/java/com/example/ecommerceapp/presentation/profile/UserAddress/AddressList/AddressListViewModel.kt:127-128 | after removal the key holds no node and every other address is as it was |
| AddressForm.CompleteMeansFilled | app/src/main/java/com/example/ecommerceapp/presentation/profile/UserAddress/AddAddress/AddAddressViewModel.kt:130-138 | a form that passes validation has text in all six fields, and an empty form never passes |
| AddressForm.FormOf | app/src/main/java/com/example/ecommerceapp/presentation/profile/UserAddress/EditAddress/EditAddressViewModel.kt:53-72 | the form filled from an address describes that same address |
| AddressForm.FormReadBack | app/src/main/java/com/example/ecommerceapp/presentation/profile/UserAddress/EditAddress/EditAddressViewModel.kt:148 | a node written with the form's fields reads back as the form's address, whatever other children it keeps |
| AddressForm.Keys | app/src/main/java/com/example/ecommerceapp/presentation/profile/UserAddress/AddAddress/AddAddressViewModel.kt:94-96 | the keys of the nodes, in order |
| AddressForm.OtherKeys | app/src/main/java/com/example/ecommerceapp/presentation/profile/UserAddress/EditAddress/EditAddressViewModel.kt:140-144 | the keys other than the edited one: exactly those, and never the edited one |
| AddressForm.HasIsKey | app/src/main/java/com/example/ecommerceapp/presentation/profile/UserAddress/EditAddress/EditAddressViewModel.kt:140-144 | every address that exists is among the keys the loop visits |
| AddressForm.AddedAddress | app/src/main/java/com/example/ecommerceapp/presentation/profile/UserAddress/AddAddress/AddAddressViewModel.kt:71-120 | the list reads the new address as the form under its new key; a new default makes every earlier address non-default, and a non-default one leaves them untouched |
| AddressForm.AddAddressViewModel.constructor | app/src/main/java/com/example/ecommerceapp/presentation/profile/UserAddress/AddAddress/AddAddressViewModel.kt:31-32 | the add screen starts with the empty form |
| AddressForm.AddAddressViewModel.UpdateFullName | app/src/main/java/com/example/ecommerceapp/presentation/profile/UserAddress/AddAddress/AddAddressViewModel.kt:42-44 | only the name field changes |
| AddressForm.AddAddressViewModel.UpdatePhoneNumber | app/src/main/java/com/example/ecommerceapp/presentation/profile/UserAddress/AddAddress/AddAddressViewModel.kt:46-48 | only the phone field changes |
| AddressForm.AddAddressViewModel.UpdateAddress | app/src/main/java/com/example/ecommerceapp/presentation/profile/UserAddress/AddAddress/AddAddressViewModel.kt:50-52 | only the street field changes |
| AddressForm.AddAddressViewModel.UpdateCity | app/src/main/java/com/example/ecommerceapp/presentation/profile/UserAddress/AddAddress/AddAddressViewModel.kt:54-56 | only the city field changes |
| AddressForm.AddAddressViewModel.UpdateState | app/src/main/java/com/example/ecommerceapp/presentation/profile/UserAddress/AddAddress/AddAddressViewModel.kt:58-60 | only the state field changes |
| AddressForm.AddAddressViewModel.UpdateZipCode | app/src/main/java/com/example/ecommerceapp/presentation/profile/UserAddress/AddAddress/AddAddressViewModel.kt:62-64 | only the zip field changes |
| AddressForm.AddAddressViewModel.UpdateIsDefault | app/src/main/java/com/example/ecommerceapp/presentation/profile/UserAddress/AddAddress/AddAddressViewModel.kt:66-68 | only the default switch changes |
| AddressForm.AddAddressViewModel.SaveAddress | app/src/main/java/com/example/ecommerceapp/presentation/profile/UserAddress/AddAddress/AddAddressViewModel.kt:71-120 | the new address is added under the pushed key, after clearing every other default when it is default; only the read of the others can fail, with "Failed to save address: " and nothing written |
| AddressForm.AddAddressViewModel.ResetForm | app/src/main/java/com/example/ecommerceapp/presentation/profile/UserAddress/AddAddress/AddAddressViewModel.kt:123-127 | the whole state returns to the empty form |
| AddressForm.AddAddressViewModel.ValidateForm | app/src/main/java/com/example/ecommerceapp/presentation/profile/UserAddress/AddAddress/AddAddressViewModel.kt:130-138 | valid iff all six text fields are non-blank |
| AddressForm.EditedAddress | app/src/main/java/com/example/ecommerceapp/presentation/profile/UserAddress/EditAddress/EditAddressViewModel.kt:115-169 | loading the edited address gives back the saved form and keeps its stored id; a default makes every other existing address non-default, and a non-default one leaves them untouched |
| AddressForm.EditAddressViewModel.constructor | app/src/main/java/com/example/ecommerceapp/presentation/profile/UserAddress/EditAddress/EditAddressViewModel.kt:32-33 | the edit screen starts with the empty form |
| AddressForm.EditAddressViewModel.LoadAddress | app/src/main/java/com/example/ecommerceapp/presentation/profile/UserAddress/EditAddress/EditAddressViewModel.kt:43-84 | the form is filled from the stored address with defaults for missing fields; "Address not found" without a node and "Failed to load address: " on a failed read |
| AddressForm.EditAddressViewModel.UpdateFullName | app/src/main/java/com/example/ecommerceapp/presentation/profile/UserAddress/EditAddress/EditAddressViewModel.kt:86-88 | only the name field changes |
| AddressForm.EditAddressViewModel.UpdatePhoneNumber | app/src/main/java/com/example/ecommerceapp/presentation/profile/UserAddress/EditAddress/EditAddressViewModel.kt:90-92 | only the phone field changes |
| AddressForm.EditAddressViewModel.UpdateAddress | app/src/main/java/com/example/ecommerceapp/presentation/profile/UserAddress/EditAddress/EditAddressViewModel.kt:94-96 | only the street field changes |
| AddressForm.EditAddressViewModel.UpdateCity | app/src/main/java/com/example/ecommerceapp/presentation/profile/UserAddress/EditAddress/EditAddressViewModel.kt:98-100 | only the city field changes |
| AddressForm.EditAddressViewModel.UpdateState | app/src/main/java/com/example/ecommerceapp/presentation/profile/UserAddress/EditAddress/EditAddressViewModel.kt:102-104 | only the state field changes |
| AddressForm.EditAddressViewModel.UpdateZipCode | app/src/main/java/com/example/ecommerceapp/presentation/profile/UserAddress/EditAddress/EditAddressViewModel.kt:106-108 | only the zip field changes |
| AddressForm.EditAddressViewModel.UpdateIsDefault | app/src/main/java/com/example/ecommerceapp/presentation/profile/UserAddress/EditAddress/EditAddressViewModel.kt:110-112 | only the default switch changes |
| AddressForm.EditAddressViewModel.SaveAddress | app/src/main/java/com/example/ecommerceapp/presentation/profile/UserAddress/EditAddress/EditAddressViewModel.kt:115-169 | the form's fields are merged into the edited node after clearing every other default when it is default; a failed read writes nothing, and a failed merge keeps the flags already cleared; either gives "Failed to update address: " |
| AddressForm.EditAddressViewModel.ValidateForm | app/src/main/java/com/example/ecommerceapp/presentation/profile/UserAddress/EditAddress/EditAddressViewModel.kt:172-180 | valid iff all six text fields are non-blank |
| ManageUser.Photo | app/src/main/java/com/example/ecommerceapp/presentation/manageUser/ManageUserViewModel.kt:35-38 | a non-empty `profileImageUrl` replaces the decoded picture; a missing or empty one leaves it |
| ManageUser.LoadedUsersExactly | app/src/main/java/com/example/ecommerceapp/presentation/manageUser/ManageUserViewModel.kt:21-58 | the load fails exactly when a read of some user, or of its picture, throws. Otherwise every decoded user is listed, with its key as id and its picture as `Photo` says, and nothing else is listed |
| ManageUser.LoadedIdsAreKeys | app/src/main/java/com/example/ecommerceapp/presentation/manageUser/ManageUserViewModel.kt:32 | every listed user's id is the key of a child of `users` |
| ManageUser.LoadFailureSticks | app/src/main/java/com/example/ecommerceapp/presentation/manageUser/ManageUserViewModel.kt:23-57 | a read that throws on one user aborts the whole load, whatever follows it |
| ManageUser.WithBanned | app/src/main/java/com/example/ecommerceapp/presentation/manageUser/ManageUserViewModel.kt:71-79 | after the toggle the list has the same length and order; the users with the id carry the new flag and every other user is unchanged |
| ManageUser.BanThenRestore | app/src/main/java/com/example/ecommerceapp/presentation/manageUser/ManageUserViewModel.kt:62-79 | banning and then unbanning the same id, starting from the status the list shows, gives back the original list |
| ManageUser.BanReachesSignIn | app/src/main/java/com/example/ecommerceapp/presentation/manageUser/ManageUserViewModel.kt:68 | the flag written under `users/{id}/banned` is the ban status sign-in reads next; the nodes of other users are untouched |
| ManageUser.ManageUserViewModel.constructor | app/src/main/java/com/example/ecommerceapp/presentation/manageUser/ManageUserViewModel.kt:109-115 | the screen starts idle, with no users and no messages |
| ManageUser.ManageUserViewModel.LoadUsers | app/src/main/java/com/example/ecommerceapp/presentation/manageUser/ManageUserViewModel.kt:21-59 | a complete load replaces the list with `LoadedUsers`. A failed read, or a read that throws, sets "Failed to load users: " plus the message and keeps the list. Loading ends in every case |
| ManageUser.ManageUserViewModel.ToggleUserBanStatus | app/src/main/java/com/example/ecommerceapp/presentation/manageUser/ManageUserViewModel.kt:62-98 | a successful write stores the flag and updates the list as `WithBanned`, with "User has been banned" or "User has been unbanned". A failed write keeps list and store and sets "Failed to update user: " plus the message. Processing ends in both cases |
| ManageUser.ManageUserViewModel.ClearActionMessage | app/src/main/java/com/example/ecommerceapp/presentation/manageUser/ManageUserViewModel.kt:100-102 | only the action message is cleared |
| ManageUser.ManageUserViewModel.ClearErrorMessage | app/src/main/java/com/example/ecommerceapp/presentation/manageUser/ManageUserViewModel.kt:104-106 | only the error is cleared |
| ManageProduct.LoadedProductsExactly | app/src/main/java/com/example/ecommerceapp/presentation/admin/manageProduct/ManageProductViewModel.kt:27-34 | every decoded product is listed with its key as id, nothing else is listed, and the list is no longer than the snapshot |
| ManageProduct.Remaining | app/src/main/java/com/example/ecommerceapp/presentation/admin/manageProduct/ManageProductViewModel.kt:61 | after a delete, no listed product has the id, every product with another id is still listed, and the survivors keep their order |
| ManageProduct.RemainingUnknownId | app/src/main/java/com/example/ecommerceapp/presentation/admin/manageProduct/ManageProductViewModel.kt:61 | deleting an id that no listed product has leaves the list unchanged |
| ManageProduct.RemainingIdempotent | app/src/main/java/com/example/ecommerceapp/presentation/admin/manageProduct/ManageProductViewModel.kt:53-67 | deleting the same id twice gives the same list as deleting it once |
| ManageProduct.ManageProductViewModel.constructor | app/src/main/java/com/example/ecommerceapp/presentation/admin/manageProduct/ManageProductViewModel.kt:80-85 | the screen starts idle, with no products and no message |
| ManageProduct.ManageProductViewModel.LoadProducts | app/src/main/java/com/example/ecommerceapp/presentation/admin/manageProduct/ManageProductViewModel.kt:21-51 | the entries read are those of the stored `products` node (`Lists`). A successful read replaces the list with the decoded products under their keys. A failed read sets "Failed to load products: " plus the message and keeps the list |
| ManageProduct.ReloadAfterDelete | app/src/main/java/com/example/ecommerceapp/presentation/admin/manageProduct/ManageProductViewModel.kt:21-77 | once a product is deleted from the store, a reload of the store lists no product with that id, and lists every other stored product under its key |
| ManageProduct.ManageProductViewModel.DeleteProduct | app/src/main/java/com/example/ecommerceapp/presentation/admin/manageProduct/ManageProductViewModel.kt:53-77 | a successful removal drops the product from the store and the list as `Remaining` says, and puts "Product deleted successfully" in `errorMessage`. A failure keeps both and sets "Failed to delete product: " plus the message. Processing ends in both cases |
| Favorites.Keys | app/src/main/java/com/example/ecommerceapp/presentation/favorite_item/FavoriteViewModel.kt:51 | the favourite ids are the keys of the user's favourites node, one per child, in order |
| Favorites.JoinedExactly | app/src/main/java/com/example/ecommerceapp/presentation/favorite_item/FavoriteViewModel.kt:64-80 | a product is listed exactly when its key is a favourite id and it decodes, with the key as id and `isFavorite` true. A favourite id with no product is dropped |
| Favorites.JoinedAreFavorites | app/src/main/java/com/example/ecommerceapp/presentation/favorite_item/FavoriteViewModel.kt:74-77 | every listed product is flagged as a favourite and carries a favourite id |
| Favorites.RemovedFavoriteLeavesList | app/src/main/java/com/example/ecommerceapp/presentation/favorite_item/FavoriteViewModel.kt:112-119 | after the removal the product's id is no longer a favourite key, so a products listener registered by the next favourites delivery leaves it out. The user's other favourites and the other users are untouched |
| Favorites.StaleListenerRelists | app/src/main/java/com/example/ecommerceapp/presentation/favorite_item/FavoriteViewModel.kt:64-80 | a products listener registered before a removal still holds the removed id, so its next delivery lists that product again, flagged as a favourite |
| Favorites.FlagClearedReadBack | app/src/main/java/com/example/ecommerceapp/presentation/favorite_item/FavoriteViewModel.kt:119 | the product's `isFavorite` reads back as false; other products are untouched |
| Favorites.FavoriteViewModel.constructor | app/src/main/java/com/example/ecommerceapp/presentation/favorite_item/FavoriteViewModel.kt:28-42 | the screen starts loading, with no products, no error and no products listener |
| Favorites.FavoriteViewModel.LoadFavorites | app/src/main/java/com/example/ecommerceapp/presentation/favorite_item/FavoriteViewModel.kt:44-45 | loading starts and the error is cleared |
| Favorites.FavoriteViewModel.OnFavoritesDelivered | app/src/main/java/com/example/ecommerceapp/presentation/favorite_item/FavoriteViewModel.kt:49-64 | the ids are the node's keys. With none, the list empties and loading ends; with some, one more products listener is registered holding these ids, after the earlier ones, which all stay |
| Favorites.FavoriteViewModel.OnProductsDelivered | app/src/main/java/com/example/ecommerceapp/presentation/favorite_item/FavoriteViewModel.kt:65-88 | a delivery to one registered products listener lists the join of the products with the ids that listener captured, and loading ends |
| Favorites.FavoriteViewModel.OnCancelled | app/src/main/java/com/example/ecommerceapp/presentation/favorite_item/FavoriteViewModel.kt:90-108 | a cancelled listener ends loading with the database error's message |
| Favorites.FavoriteViewModel.RemoveFavorite | app/src/main/java/com/example/ecommerceapp/presentation/favorite_item/FavoriteViewModel.kt:112-128 | the favourite is removed and then the product's flag is cleared. The first failing write stops the sequence and sets "Failed to remove favorite: " plus the message. The list waits for the next delivery |
| Profile.LastFour | app/src/main/java/com/example/ecommerceapp/presentation/profile/ProfileViewModel.kt:106-108 | the first payment method's `lastFourDigits`; "34" when there is no payment method or the field is missing |
| Profile.FieldsOf | app/src/main/java/com/example/ecommerceapp/presentation/profile/ProfileViewModel.kt:84-108 | the name is the stored one, else the account's display name, else "User 101". The picture defaults to "" and the address count is the number of address children. The result is None exactly when a read throws |
| Profile.SavedNameReadBack | app/src/main/java/com/example/ecommerceapp/presentation/profile/ProfileViewModel.kt:183-197 | a saved name is the name the profile reads back, and saving it changes neither the picture, the address count nor the last four digits |
| Profile.SavedPictureReadBack | app/src/main/java/com/example/ecommerceapp/presentation/profile/ProfileViewModel.kt:166-181 | a saved picture is the one the profile reads back, and the name read is unchanged |
| Profile.ReviewCountCounts | app/src/main/java/com/example/ecommerceapp/presentation/profile/ProfileViewModel.kt:113-124 | the review count is the number of product nodes under `comments` with a child keyed by the user, so it never exceeds the number of products |
| Profile.ProfileViewModel.constructor | app/src/main/java/com/example/ecommerceapp/presentation/profile/ProfileViewModel.kt:42-44 | without an account the screen starts in the guest state; with one it starts loading with the account's e-mail, or "" when there is none |
| Profile.ProfileViewModel.LoadUserProfile | app/src/main/java/com/example/ecommerceapp/presentation/profile/ProfileViewModel.kt:46-73 | a visitor sees "Guest User" and "Sign in to see your info", and loading ends; a signed-in user's e-mail is shown and loading continues |
| Profile.ProfileViewModel.OnProfileData | app/src/main/java/com/example/ecommerceapp/presentation/profile/ProfileViewModel.kt:79-153 | after signing out nothing changes. A read that throws sets "Failed to load profile data: " plus the message. Otherwise name, picture, address count and last four digits come from `FieldsOf`, and loading ends |
| Profile.ProfileViewModel.OnCancelled | app/src/main/java/com/example/ecommerceapp/presentation/profile/ProfileViewModel.kt:156-163 | a cancelled listener ends loading with the database error's message |
| Profile.ProfileViewModel.OnOrdersLoaded | app/src/main/java/com/example/ecommerceapp/presentation/profile/ProfileViewModel.kt:93-101 | the order count is the number of children of the user's orders node |
| Profile.ProfileViewModel.OnCommentsLoaded | app/src/main/java/com/example/ecommerceapp/presentation/profile/ProfileViewModel.kt:113-135 | the review count becomes `ReviewCount` of the comments node; nothing else changes |
| Profile.ProfileViewModel.UpdateProfilePicture | app/src/main/java/com/example/ecommerceapp/presentation/profile/ProfileViewModel.kt:167-181 | a signed-in user's picture is stored under `users/{uid}/profileImageUrl` and shown; for a visitor nothing changes |
| Profile.ProfileViewModel.UpdateUsername | app/src/main/java/com/example/ecommerceapp/presentation/profile/ProfileViewModel.kt:183-197 | a signed-in user's name is stored under `users/{uid}/name` and shown; for a visitor nothing changes |
| Profile.ProfileViewModel.SignOut | app/src/main/java/com/example/ecommerceapp/presentation/profile/ProfileViewModel.kt:200-209 | the account is gone, and the whole state is the guest state with every count zero |
| Profile.ProfileViewModel.LoadPlaceholderData | app/src/main/java/com/example/ecommerceapp/presentation/profile/ProfileViewModel.kt:212-224 | the fixed sample name, e-mail and counts are shown and loading ends |

## Left out

- The chat wrapper under `crispChatBox/` is not modelled. It only forwards two calls to the vendor SDK and has no logic of its own.
- Firebase itself is not modelled: its network, listeners, coroutines and threads. Every read, write and authentication answer is a parameter. Each method shows the state once its asynchronous work has finished, so the short-lived "loading" and "processing" values in between are not separate states.
- Listener redelivery is not modelled. A value listener fires again on every later change, and each delivery is modelled as one more call of the delivery method. The model does not capture the order in which deliveries from several listeners interleave.
- The ZaloPay payment flow is not modelled (`processZaloPayment`, `Order/OrderViewModel.kt:157-287`). It exchanges tokens with the payment SDK and its server. The model covers only the request `initiateZaloPayPayment` hands over and the state `placeOrder` leaves for it.
- Images and media are not decoded: picking, resizing, Base64-encoding and thumbnail extraction. The encoded text, or its absence when a stream fails, is a parameter.
- Identifiers are parameters: `push()` keys, `UUID.randomUUID()` ids and the random anonymous user id. The same holds for the clock (`Date().time`, `System.currentTimeMillis()`), the time zone offset and date formatting (a formatting function is passed in).
- Days are modelled as exactly 86,400,000 milliseconds at a fixed offset from UTC. Daylight-saving changes are not modelled, so `Calendar.add(DAY_OF_MONTH, 1)` on a changeover day is not modelled exactly.
- Money and ratings are exact `real` numbers. Rounding of Kotlin `Double`/`Float` sums and products (prices, 10% tax, 4.99 shipping, revenue, rating means) is not modelled, and neither is the text `toString` gives for them.
- `NumberText.ToDoubleOrNull` covers only plain decimals: an optional sign, digits and an optional fraction. Exponents, `NaN`, `Infinity`, hexadecimal forms and surrounding whitespace are not modelled.
- Character classes and case folding are ASCII-only: `isUpperCase`, `isLowerCase`, `isDigit`, `isLetterOrDigit` and `lowercase()`. Other Unicode letters and digits are not modelled. Blankness uses the JVM whitespace characters.
- Sums and counts held in an `Int` are unbounded in the model (`childrenCount.toInt()`, `reviewCount + 1`, cart subtotals), except where the model names `Int32`: the stock and purchase counts written by "mark as received" and the order card's item count.
- Profile.ProfileViewModel.OnOrdersLoaded: the order count is a `nat`. Wrap-around of `childrenCount.toInt()` past `Int.MAX_VALUE` is not modelled.
- Profile.ProfileViewModel.OnCommentsLoaded: the review count is a `nat`. Wrap-around of the counter past `Int.MAX_VALUE` is not modelled.
- Jetpack Compose layout, navigation, toasts and logging are not modelled. Only the screen-level state the view models and screens compute is modelled: chip selection, the effects that reload the shop when its sort, category or query changes, date range, empty states and card texts. The effects are modelled as running right after the handler that changed their key.
- ChangePassword.ChangePasswordViewModel.ChangePassword: a re-authentication failure whose message mentions an invalid, malformed or expired credential sets its message and then never resumes the waiting coroutine. The model ends the call once the message is set; it does not model the suspended coroutine.
- Favorites.FavoriteViewModel.RemoveFavorite: the displayed list is not updated locally. It changes only at the listener's next delivery, which is modelled as a separate call.
- The admin screen's user record (the `User` datatype of `ManageUser`) has, besides the five fields of `model/UserModel.kt:7-13` (e-mail, name, password, confirmation, creation date), `id`, `photoUrl` and `banned`. `presentation/manageUser/ManageUserViewModel.kt:32`, `:37` and `:74` assign or copy these three, but the `UserModel` class as written does not declare them. The model assumes a `UserModel` with those three fields, decoded like the others.
- Checkout.AddressById: the store holds each address already decoded field by field. A child of the wrong type, which makes the class decode throw so that the lookup gives no address, is not modelled.
- String lengths and comparisons count Unicode characters, while Kotlin's `String.length` and `compareTo` count UTF-16 code units. Outside the Basic Multilingual Plane the two differ: "😀😀😀" has length 6 in Kotlin and 3 in the model. This affects the password checks for fewer than 6 characters (sign in, sign up, change password, reset password), the check for at least 8 in change password, the two-character search threshold, and `Sorting.TextLess`.
- Favorites.FavoriteViewModel.OnProductsDelivered: each callback of a listener is one call, for one registered products listener. When the products change, the source calls every registered listener in turn, and the last one's list is what stays; the model leaves the order of those calls to the caller.
- The "Mark as Received" button on the order history screen is built with the default `onMarkAsReceived = {}` (`OrderHistoryScreen.kt:512`, `:629`), so pressing it does nothing. `OrderHistory.OrderHistoryViewModel.MarkOrderAsReceived` models the view model's operation, which no screen reaches.
- OrderHistory.ReceiveLine: a counter read fails only when the stored value has the wrong type. A network failure of a counter's `get().await()`, which ends the loop the same way, is not modelled.
- EditProduct.EditProductViewModel.UpdateProduct: a precondition (`ReachesCategory(ui) ==> ui.category.Some?`) excludes the `category!!` crash at `EditProductViewModel.kt:166`. The crash is reachable when the loaded product has no category (`:54`, a nullable `category` in `ProductModel.kt:15`), and the model does not describe it. `EditProduct.EditProblem` carries the same precondition.
- Firebase returns children in key order. The model keeps children in the order the snapshot holds them and does not state that order.
