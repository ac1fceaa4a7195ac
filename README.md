# PSquare shop client — a Dafny model of its state and rules

This project models the logic behind a small React Native shop app in Dafny: browsing, the cart, checkout, and the sign-in forms. The model covers:

- **Order store.** An append-only list of orders. Each order is stamped with an id, a date and the status `pending`.
- **Catalog store.** Products, categories, a loading flag and an error. It reacts to the pending, fulfilled and rejected events of the two catalog fetches, and to `clearError`.
- **Checkout arithmetic.** Subtotal, shipping cost and total. Placing an order records the total shown and then empties the cart.
- **Cart screen.** The quantity stepper and the summary.
- **Product detail screen.** The add-to-cart guard and payload, the size picker and the like heart.
- **Shipping step.** The address schema, the table of shipping methods and the lookup on submit.
- **"All Products" list.** Paginated by offset.
- **Search screen.** The URL it builds from its filters, the "filters active" marker, the reset and the category chips.
- **Home screen.** The category filter, the slices it shows, and the choice between loader, error view and content.
- **Checkout progress bar.**
- **Sign-in and sign-up form rules.**
- **String helpers.** `capitalize` and the cleaner for authentication errors.

Money is integer cents, so the shipping price 9.90 is 990.

The source's stateful parts are classes whose methods update fields. The `modifies` clauses say what each method may change, and the postconditions say what the new state is and which fields stay unchanged:

- the order store;
- the catalog store;
- the product list;
- the search, detail and shipping screens.

The pure parts are functions. Lemmas prove what the source promises about them. Inputs the app reads from the outside world are parameters:

- fetched pages;
- responses;
- order ids and dates;
- the email-format check;
- `encodeURIComponent`;
- single-character upper-casing.

Modules, one per source file:

| file | module | source |
|---|---|---|
| wrappers.dfy | `Wrappers` | the `Option` type |
| js_text.dfy | `JsText` | ECMAScript white space, `trim`, line terminators, the decimal text of an integer |
| order_slice.dfy | `Orders` | `src/store/slices/orderSlice.ts` |
| product_slice.dfy | `Catalog` | `src/store/slices/productSlice.ts` |
| helpers.dfy | `Helpers` | `src/utils/helpers.ts` |
| cart_actions.dfy | `CartActions` | the cart actions the screens dispatch |
| payment_screen.dfy | `Payment` | `src/screens/Main/Checkout/PaymentScreen.tsx` |
| cart_screen.dfy | `CartScreen` | `src/screens/Main/cart/index.tsx` |
| product_detail.dfy | `ProductDetail` | `src/screens/Main/ProductDetail/index.tsx` |
| shipping_screen.dfy | `Shipping` | `src/screens/Main/Checkout/ShippingScreen.tsx` |
| product_list.dfy | `ProductList` | `src/screens/Main/ProductList/index.tsx` |
| discover.dfy | `Discover` | `src/screens/Main/discover/index.tsx` |
| home.dfy | `Home` | `src/screens/Main/home/index.tsx` |
| checkout_stepper.dfy | `CheckoutStepper` | `src/components/CheckoutStepper.tsx` |
| form_rules.dfy | `FormRules` | the Yup rules the two auth forms use |
| login_screen.dfy | `LoginScreen` | `src/screens/Auth/loginScreen/index.tsx` |
| signup_screen.dfy | `SignupScreen` | `src/screens/Auth/signupScreen/index.tsx` |

Some behaviour of the code as written is worth knowing. Each point is stated and proved in the model:

- **'Fast Delivery' never shows.** Both paid shipping methods are named '$ 9.90', so the label is never shown, not even for the 'fast' method (`Shipping.FastDeliveryLabelNeverShows`).
- **Category 0 on the home screen.** The home filter tests the selected category for truthiness, so a selected id of 0 shows every product (`Home.FilteredProducts`). The search screen instead tests `!== null`.
- **A query of spaces.** It lights the "filters active" marker but sends no `title` parameter (`Discover.BlankQueryIsActiveButNotSent`).
- **The error cleaner is not global.** It removes only the first bracketed code, and a code never reaches past the end of its line (`Helpers.StripIsNotGlobal`).
- **Load more after a dropped fetch.** The offset still moves on even when the first page is still loading and the new fetch is dropped (`ProductList.ProductListScreen.LoadMore`). The list is not rendered while that first page loads, so the screen itself does not trigger this.

## Model

| member | source | states |
|---|---|---|
| Orders.Stamp | src/store/slices/orderSlice.ts:49-55 | the new order carries exactly the payload's items, address, shipping method and total; its id and date are the generated ones and its status is `pending` whatever the caller passes |
| Orders.ReduceAllOnlyAppends | src/store/slices/orderSlice.ts:48-58 | after any sequence of actions the list has grown by one per action, every earlier order is still in its place unchanged, and each added order is pending with its action's payload: no action removes or edits an order |
| Orders.OrderStore.constructor | src/store/slices/orderSlice.ts:41-43 | the order list starts empty |
| Orders.OrderStore.CreateOrder | src/store/slices/orderSlice.ts:49-57 | the list becomes exactly one longer, the earlier orders are unchanged and the new stamped order is last |
| Catalog.ProductsRequest | src/store/slices/productSlice.ts:18-20 | the products fetch always asks from offset 0, for 30 products when no limit is given and for the given limit otherwise |
| Catalog.ErrorText | src/store/slices/productSlice.ts:46 | `message \|\| fallback`: a non-empty message is kept, a missing or empty one gives the fallback, so the text is never empty |
| Catalog.CatalogStore.constructor | src/store/slices/productSlice.ts:11-16 | no products, no categories, not loading, no error |
| Catalog.CatalogStore.ClearError | src/store/slices/productSlice.ts:30-32 | the error becomes null and nothing else changes |
| Catalog.CatalogStore.ProductsPending | src/store/slices/productSlice.ts:36-39 | loading starts and the error is cleared; products and categories are unchanged |
| Catalog.CatalogStore.ProductsFulfilled | src/store/slices/productSlice.ts:40-43 | loading ends and the payload replaces the products wholesale; categories and error are unchanged |
| Catalog.CatalogStore.ProductsRejected | src/store/slices/productSlice.ts:44-47 | loading ends and the error is the message, or the fixed products text when the message is missing or empty; the lists are unchanged |
| Catalog.CatalogStore.CategoriesPending | src/store/slices/productSlice.ts:48-50 | only the error is cleared; the loading flag is not touched |
| Catalog.CatalogStore.CategoriesFulfilled | src/store/slices/productSlice.ts:51-53 | only the categories change, to the payload |
| Catalog.CatalogStore.CategoriesRejected | src/store/slices/productSlice.ts:54-56 | only the error changes, to the message or 'Failed to load categories' |
| Helpers.Capitalize | src/utils/helpers.ts:8-10 | the empty string maps to itself; otherwise the result is the upper-cased first character followed by the rest |
| Helpers.CapitalizeKeepsRest | src/utils/helpers.ts:9 | the result starts with the upper-cased first character and everything after it is the input's rest, verbatim |
| Helpers.CapitalizeAsciiLength | src/utils/helpers.ts:9 | on ASCII text the length is kept and every character after the first is unchanged |
| Helpers.CapitalizeAsciiIdempotent | src/utils/helpers.ts:9 | on ASCII text capitalising twice equals capitalising once |
| Helpers.CloseFor | src/utils/helpers.ts:16 | greedy `.*\]` from a '[' ends at the last ']' before the next line terminator, and exists iff some ']' follows on that line |
| Helpers.SkipSpaces | src/utils/helpers.ts:16 | greedy `\s*` consumes only white space and stops at a non-space or the end |
| Helpers.BracketCode | src/utils/helpers.ts:16 | the pattern matches iff some '[' has a ']' later on its own line; the match spans at least the two brackets |
| Helpers.StripBracketCode | src/utils/helpers.ts:16 | the cleaned message is never longer than the original |
| Helpers.FirebaseErrorMessage | src/utils/helpers.ts:12-19 | a missing or empty message gives 'An unknown error occurred'; otherwise exactly the message with its bracketed code stripped (`Helpers.StripBracketCode`), never longer than the original |
| Helpers.StripWithoutCodeIsIdentity | src/utils/helpers.ts:16 | a message with no '[' closed on its own line comes back unchanged |
| Helpers.StripRemovesLeftmostCode | src/utils/helpers.ts:16 | exactly one stretch goes: from the leftmost '[' closed on its line, through the last ']' of that line, through the white space after it; all before and after is kept |
| Helpers.StripCodePrefix | src/utils/helpers.ts:14-16 | "[code] text" becomes "text" for any code on one line without ']' and any text without ']' |
| Helpers.StripDocumentedExample | src/utils/helpers.ts:14-16 | "[auth/user-not-found] User not found." becomes "User not found." |
| Helpers.StripFirstLineCode | src/utils/helpers.ts:16 | a code ending the first line goes with the line break after it; the later lines are kept whole, brackets included |
| Helpers.StripIsNotGlobal | src/utils/helpers.ts:16 | "[a]", a line break, "[b]" becomes "[b]": only the first code is removed |
| JsText.TrimStart | src/screens/Main/discover/index.tsx:50 | `trim` drops exactly the leading white space: a suffix that is empty or starts with a non-space, and what was dropped is all white space |
| JsText.TrimEnd | src/screens/Main/discover/index.tsx:50 | `trim` drops exactly the trailing white space: a prefix that is empty or ends with a non-space, and what was dropped is all white space |
| JsText.TrimEmptyIffBlank | src/screens/Main/discover/index.tsx:50 | `query.trim().length > 0` holds exactly when the query is not all white space |
| JsText.NatToDecimal | src/screens/Main/discover/index.tsx:54 | the category id is printed as at least one decimal digit, without leading zeros |
| JsText.NatToDecimalRoundTrip | src/screens/Main/discover/index.tsx:54 | reading the printed digits back gives the id: printing loses nothing |
| Payment.Subtotal | src/screens/Main/Checkout/PaymentScreen.tsx:43 | a one-line cart sums to that line's price × quantity, and a cart whose every line is worth 0 (the empty cart among them) sums to 0 |
| Payment.SubtotalAppend | src/screens/Main/Checkout/PaymentScreen.tsx:43 | the price × quantity sum of two carts end to end is the sum of their sums |
| Payment.SubtotalFirstLine | src/screens/Main/Checkout/PaymentScreen.tsx:43 | the sum is the first line's price × quantity plus the sum of the rest, so each line counts once |
| Payment.SubtotalNonNegative | src/screens/Main/Checkout/PaymentScreen.tsx:43 | with no negative price or quantity the subtotal is not negative |
| Payment.ShippingCost | src/screens/Main/Checkout/PaymentScreen.tsx:44 | the method's price, or 0 when no method was passed |
| Payment.Total | src/screens/Main/Checkout/PaymentScreen.tsx:45 | the total is the subtotal when no method was passed, and the subtotal plus the method's price otherwise |
| Payment.ShowShipping | src/screens/Main/Checkout/PaymentScreen.tsx:142 | the shipping row reads 'Freeship' exactly when the cost is 0, otherwise that amount |
| Payment.PlacedPayload | src/screens/Main/Checkout/PaymentScreen.tsx:43-53 | the order payload holds the cart items, the route's address and method, and total = subtotal + shipping price |
| Payment.PlaceOrder | src/screens/Main/Checkout/PaymentScreen.tsx:47-54 | one order is appended holding the items as they were before the cart was cleared and the total shown; the cart ends empty; the chosen payment method and card are not recorded |
| Payment.TotalExample | src/screens/Main/Checkout/PaymentScreen.tsx:43-45 | two lines of 2 × 10.00 and 1 × 5.00 give 25.00, and with 9.90 shipping the total is 34.90 |
| CartActions.CartStore.ClearCart | src/screens/Main/Checkout/PaymentScreen.tsx:54 | after `clearCart` the cart has no lines |
| CartScreen.ColorLabel | src/screens/Main/cart/index.tsx:36 | the label is 'Cream' exactly when the colour is '#E5C1B2', and 'Other' in every other case |
| CartScreen.MinusPressed | src/screens/Main/cart/index.tsx:39-42 | a quantity above 1 sends `updateQuantity(id, quantity - 1)` and otherwise `removeFromCart(id)`; an update never asks for less than 1 |
| CartScreen.PlusPressed | src/screens/Main/cart/index.tsx:46-49 | always `updateQuantity(id, quantity + 1)` |
| CartScreen.MinusUndoesPlus | src/screens/Main/cart/index.tsx:41-48 | minus right after plus asks for the quantity the line had |
| CartScreen.ViewCart | src/screens/Main/cart/index.tsx:62-104 | an empty cart shows only the empty message, with no checkout button; otherwise the product price is the price × quantity sum, shipping reads 'Freeship', and the total equals the product price |
| CartScreen.CartTotalIsPaymentTotalWithFreeShipping | src/screens/Main/cart/index.tsx:62-63 | the cart's total is what payment charges with a free method: both screens sum the same way |
| ProductDetail.HasLineWithId | src/screens/Main/ProductDetail/index.tsx:42 | `some`: true iff some cart line has the id |
| ProductDetail.IsInCart | src/screens/Main/ProductDetail/index.tsx:42 | false while no product is loaded, otherwise true iff a cart line has the product's id |
| ProductDetail.AddPayload | src/screens/Main/ProductDetail/index.tsx:65-72 | the line sent has the product's id, title and price, quantity 1, the selected size, the first image (none when there is none) and no colour |
| ProductDetail.ButtonLabel | src/screens/Main/ProductDetail/index.tsx:293-295 | the button reads 'Added to Cart' exactly when the product is in the cart |
| ProductDetail.ProductDetailScreen.constructor | src/screens/Main/ProductDetail/index.tsx:34-40 | no product, loading, size 'M', not liked |
| ProductDetail.ProductDetailScreen.ProductLoaded | src/screens/Main/ProductDetail/index.tsx:44-61 | a fetched product is shown, a failure keeps the product shown (none on mount); loading ends either way |
| ProductDetail.ProductDetailScreen.SelectSize | src/screens/Main/ProductDetail/index.tsx:182-186 | tapping a size box selects that size, which is always one of S, M, L |
| ProductDetail.ProductDetailScreen.ToggleLike | src/screens/Main/ProductDetail/index.tsx:81-91 | the heart flips, and the wishlist toast fires exactly on the off→on flip; the selected size stays one of S, M, L |
| ProductDetail.ProductDetailScreen.PressAdd | src/screens/Main/ProductDetail/index.tsx:63-79 | an add is dispatched iff a product is loaded and not in the cart, with the one-piece payload in the selected size; so the screen never adds a product already in the cart, and the size sent is always one of S, M, L |
| Shipping.FailingFields | src/screens/Main/Checkout/ShippingScreen.tsx:23-32 | a field fails iff it is one of the seven required fields and is empty |
| Shipping.NoFailingFieldIff | src/screens/Main/Checkout/ShippingScreen.tsx:23-32 | no field fails iff first name, last name, country, street, city, zip code and phone are all non-empty |
| Shipping.AddressValid | src/screens/Main/Checkout/ShippingScreen.tsx:23-32 | the address passes iff first name, last name, country, street, city, zip code and phone are all non-empty; a blank but non-empty value passes |
| Shipping.StateIsOptional | src/screens/Main/Checkout/ShippingScreen.tsx:29 | whatever the state / province holds, validity does not change |
| Shipping.MethodTable | src/screens/Main/Checkout/ShippingScreen.tsx:34-38 | three methods with distinct ids, priced 0, 9.90 and 9.90; the first is 'free' |
| Shipping.FindMethod | src/screens/Main/Checkout/ShippingScreen.tsx:78 | `find`: nothing iff no entry has the id, otherwise the first entry with that id |
| Shipping.FindReturnsTheEntry | src/screens/Main/Checkout/ShippingScreen.tsx:78 | looking up any table entry's id gives that very entry |
| Shipping.DeliveryType | src/screens/Main/Checkout/ShippingScreen.tsx:176 | the label is one of 'Delivery to home' and 'Fast Delivery': 'Delivery to home' for the free method or any method named '$ 9.90', 'Fast Delivery' for every other |
| Shipping.FastDeliveryLabelNeverShows | src/screens/Main/Checkout/ShippingScreen.tsx:176 | every entry of the table is labelled 'Delivery to home': the 'Fast Delivery' branch is never reached |
| Shipping.ShippingStep.constructor | src/screens/Main/Checkout/ShippingScreen.tsx:42 | the free method is selected at first |
| Shipping.ShippingStep.Choose | src/screens/Main/Checkout/ShippingScreen.tsx:168 | tapping a method card selects its id, which stays an id of the table |
| Shipping.ShippingStep.Submit | src/screens/Main/Checkout/ShippingScreen.tsx:75-80 | the step moves on iff the address is valid, passing the form values as the address and the table method whose id is the selection; the coupon plays no part |
| ProductList.ProductListScreen.constructor | src/screens/Main/ProductList/index.tsx:25-30 | an empty list at offset 0, nothing loading, more to come |
| ProductList.ProductListScreen.BeginFetch | src/screens/Main/ProductList/index.tsx:32-39 | a fetch is dropped iff loading, or loading more with a non-zero offset; otherwise offset 0 raises `loading`, any other offset `loadingMore`, and ten products are requested from that offset |
| ProductList.ProductListScreen.CompleteFetch | src/screens/Main/ProductList/index.tsx:38-53 | a page shorter than ten ends paging and nothing turns it back on; offset 0 replaces the list, any other offset appends in order, a failure keeps it; both flags end false |
| ProductList.ProductListScreen.LoadMore | src/screens/Main/ProductList/index.tsx:60-66 | when no further page is loading and paging has not ended, the offset moves on by exactly ten and that page is requested, unless the first page is still loading, in which case the request is dropped (no flag changes) although the offset has moved; in every other case nothing changes |
| Discover.SearchParams | src/screens/Main/discover/index.tsx:47-54 | at most five parameters, and none at all exactly when the query is blank, the three price texts are empty and no category is selected |
| Discover.Url | src/screens/Main/discover/index.tsx:47-58 | the URL always starts with the products URL; it is exactly that URL iff there is no parameter, and otherwise '?' follows it |
| Discover.HasActiveFilters | src/screens/Main/discover/index.tsx:111 | the marker is off exactly when the query and the three price texts are empty and no category is selected |
| Discover.RenderAll | src/screens/Main/discover/index.tsx:50-54 | each parameter is written `key=value`, one piece per parameter, in order |
| Discover.ParamsInOrder | src/screens/Main/discover/index.tsx:50-54 | the parameters come in the order title, price, price_min, price_max, categoryId, each at most once |
| Discover.ValuesOfFilters | src/screens/Main/discover/index.tsx:50-54 | each key carries the value of the filter behind it exactly when that filter is set |
| Discover.ParamValues | src/screens/Main/discover/index.tsx:50-54 | title iff the trimmed query is non-empty, valued with the encoded untrimmed query; price, price_min and price_max iff their text is non-empty, unencoded; categoryId iff a category is selected, as its decimal text |
| Discover.BareUrl | src/screens/Main/discover/index.tsx:47-58 | with no parameter the URL is exactly the products URL, with no '?' |
| Discover.UrlOfRendered | src/screens/Main/discover/index.tsx:56-58 | '?' and the '&'-joined pieces are added exactly when there is at least one piece |
| Discover.BuildSearchUrl | src/screens/Main/discover/index.tsx:47-58 | the URL built step by step is the products URL with the filters' parameters, in order, joined by '&' |
| Discover.PushParams | src/screens/Main/discover/index.tsx:48-54 | the five conditional pushes give exactly the written-out parameters of the filters, in order |
| Discover.InactiveFiltersSendNothing | src/screens/Main/discover/index.tsx:50-54 | with no filter active (the marker of line 111 off) no parameter is sent |
| Discover.BlankQueryIsActiveButNotSent | src/screens/Main/discover/index.tsx:111 | a query of spaces alone lights the marker but sends no parameter |
| Discover.SearchScreen.constructor | src/screens/Main/discover/index.tsx:33-42 | empty query and prices, no category, no results, not loading |
| Discover.SearchScreen.ResetFilters | src/screens/Main/discover/index.tsx:85-91 | all five filter fields become empty or null, so no filter is active; the results stay |
| Discover.SearchScreen.TapCategory | src/screens/Main/discover/index.tsx:215 | tapping the selected chip deselects it and tapping another selects that one; nothing else changes |
| Discover.SearchScreen.StartSearch | src/screens/Main/discover/index.tsx:44-60 | loading shows and the request goes to the URL the current filters give |
| Discover.SearchScreen.SearchSettled | src/screens/Main/discover/index.tsx:60-75 | an array response replaces the results, any other response empties them, a failure keeps them; loading ends |
| Home.InCategory | src/screens/Main/home/index.tsx:83 | keeps exactly the products of that category: every kept one has it and every product having it is kept |
| Home.InCategoryAppend | src/screens/Main/home/index.tsx:83 | filtering two lists end to end filters each and keeps their order |
| Home.InCategoryIdempotent | src/screens/Main/home/index.tsx:83 | filtering again changes nothing |
| Home.FilteredProducts | src/screens/Main/home/index.tsx:82-84 | no selection, or a selected id of 0, shows all products; any other selection shows that category's products |
| Home.ToggleCategory | src/screens/Main/home/index.tsx:127 | tapping the selected chip clears the selection; tapping any other selects it |
| Home.ToggleTwice | src/screens/Main/home/index.tsx:127 | tapping the same chip twice restores a selection that was none or that chip |
| Home.Slice | src/screens/Main/home/index.tsx:119 | `slice` (also lines 154 and 187) with bounds clamped to the length: each element is the one at start + i, and when start ≤ end and start is inside the list there are exactly min(end, length) - start of them; a start past the end, or an end not after the start, gives nothing |
| Home.View | src/screens/Main/home/index.tsx:86-106 | loader iff loading with no products; error view iff not that, a non-empty error and no products; otherwise at most 5 categories, at most 6 featured products of the selection, and products 10 to 15 unfiltered |
| Home.LoadData | src/screens/Main/home/index.tsx:73-76 | categories are requested first and then 30 products from offset 0; loading is on and the error cleared |
| CheckoutStepper.StepActive | src/components/CheckoutStepper.tsx:30 | an icon is lit iff the current step has reached its number |
| CheckoutStepper.Dots | src/components/CheckoutStepper.tsx:13-27 | five dots, all white when lit and all grey otherwise |
| CheckoutStepper.Bar | src/components/CheckoutStepper.tsx:45-61 | icons 1, 2, 3 alternate with two dot runs; icon k is lit iff the current step has reached k, the first dot run is lit iff the step is at least 2 and the second iff it is at least 3 |
| CheckoutStepper.LitIsAPrefix | src/components/CheckoutStepper.tsx:29-57 | everything left of a lit segment is lit; a dot run is lit exactly when the icon after it is |
| CheckoutStepper.LitSteps | src/components/CheckoutStepper.tsx:30 | the number of lit icons is the current step clamped to 0..3 |
| CheckoutStepper.CheckoutScreens | src/components/CheckoutStepper.tsx:45-61 | on the bar itself, step 1 lights icon 1 and no dots, step 2 icons 1 and 2 and the first run, step 3 everything; the lit-icon counts are 1, 2 and 3 |
| FormRules.Passes | src/screens/Auth/signupScreen/index.tsx:26-35 | on an empty field `required` fails, `email()` passes, `min(n)` fails for n > 0 and `oneOf(ref)` passes only when the other field is empty too; on a non-empty field `required` passes and `email()` is the email check |
| FormRules.Failing | src/screens/Auth/loginScreen/index.tsx:26-31 | a field is listed iff one of its rules does not pass: every failing field is listed and every listed field has a failing rule; none is listed exactly when every field passes |
| LoginScreen.LoginValidIff | src/screens/Auth/loginScreen/index.tsx:26-31 | sign-in is submitted iff the email is non-empty and well formed and the password has at least six characters |
| LoginScreen.EmptyLoginFailsBothFields | src/screens/Auth/loginScreen/index.tsx:26-31 | the fresh, empty form fails on both email and password |
| SignupScreen.SignupValidIff | src/screens/Auth/signupScreen/index.tsx:26-35 | sign-up is submitted iff the name is non-empty, the email is non-empty and well formed, the password has at least six characters, and the confirmation is non-empty and equal to the password |
| SignupScreen.MismatchFlagsConfirmation | src/screens/Auth/signupScreen/index.tsx:32-34 | a confirmation that differs from the password is always flagged |

## Left out

- **The cart reducer** (`cartSlice`): it is not part of this model. The screens are modelled by the action they dispatch. The only effect given to the store is that `clearCart` empties it, since the payment step relies on that.
- **Order ids and dates** come from `Math.random` and `new Date()`. They are parameters.
- **Network and authentication calls** are left out: the catalog API, axios and Firebase. Their results enter as method parameters: a fetched page, a response, an error message or a failure.
- **React effects are not modelled:**
  - the 400 ms search debounce;
  - the stale `performSearch` closure (its dependency list omits `exactPrice`);
  - out-of-order completion of concurrent fetches;
  - toasts other than the wishlist toast;
  - navigation.
- **Floating point:** prices are integer cents. `toFixed`, the `$ {price}.00` strings and the scroll-to-index rounding are not modelled.
- **Library behaviour left as parameters:**
  - Yup's email pattern (`isEmail`);
  - `encodeURIComponent` (`encode`);
  - `toUpperCase` of one character (`upper`).
  
  `Helpers.CapitalizeAsciiLength` and `Helpers.CapitalizeAsciiIdempotent` assume only that `upper` is exact on ASCII.
- **Yup error messages and Formik's touched state** are left out. `min(6)` counts Dafny characters, which are code points; JavaScript counts UTF-16 code units, so the two differ outside the Basic Multilingual Plane.
- FormRules.Passes: the verdict of each rule on an empty field is Yup's verdict on the empty string; Formik hands Yup an empty field as `undefined`, so there `email()`, `min(n)` and `oneOf` are skipped and only `required` fails. Every such field in the two forms also carries `required`, so `FormRules.Failing`, `LoginScreen.LoginValidIff` and `SignupScreen.SignupValidIff` are the same either way.
- Helpers.Capitalize: the first character is a Dafny character (a code point), while `charAt(0)` takes one UTF-16 code unit; for text starting outside the Basic Multilingual Plane JavaScript would upper-case half a surrogate pair, which is not modelled.
- Payment.PlaceOrder: takes a shipping method that is always present, because the shipping step always passes one (`Shipping.ShippingStep.Submit` looks up the selected id, which is always an id of the table); the `|| 0` fallback for a missing method is modelled in `Payment.ShippingCost` and `Payment.Total`.
- **JsText.IntToDecimal** prints integers only. JavaScript prints very large numbers in exponent form, and that is not modelled.
- **Rendering and styles** are left out. `formatDate` (locale-dependent) and `src/screens/Main/screen/index.tsx` (not reachable from navigation) are not part of this model.
