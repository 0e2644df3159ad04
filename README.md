# Storefront cart and order pricing, modelled in Dafny

This project models the parts of the storefront that carry rules: the
server-side cart tables and their four request handlers, the client-side
shopping bag (list edits, ticked-line subtotal, the "save20" coupon, the
floored total), the checkout summary (subtotal, fixed 7.50 shipping, cash on
delivery only), the product search filter, and the seeder that materialises
orders whose total is the sum of their lines.

The products page keeps its search term in state but never changes it: nothing
calls `setSearchTerm`, and `handleSearch` only logs its argument. As the page
stands, the filter always sees the empty term and shows every product. The model
takes the term as a parameter, so the filter is specified for every term.

Files, one module each:

- `common.dfy` (`Common`): table ids, `Option`, `Result`, `max`/`min`.
- `text.dfy` (`Text`): ASCII `toLowerCase` and `includes`, with `includes` proved equal to "occurs at some offset".
- `sequences.dfy` (`Sequences`): order-preserving subsequences, the shape of a `filter` result.
- `cart_controller.dfy` (`CartController`): the `carts` and `cart_items` tables as maps in class `CartStore`.
  `index`, `store`, `update` and `destroy` are methods. Each method is specified against functions of the
  old tables: the ghost functions `GetOrCreate` and `AddToCart`, and the function `Authorize`. The lemmas prove the table invariants: one cart per
  user, one row per cart and product, and every quantity at least 1.
- `cart_page.dfy` (`CartPage`): the bag's list transforms and pricing as functions over `seq<CartLine>`, and the
  component state (`cartItems`, `couponCode`, `discount`) as class `PageState`.
- `checkout_page.dfy` (`CheckoutPage`): the checkout subtotal, total and `handlePlaceOrder`.
- `products_page.dfy` (`ProductsPage`): `filteredProducts`.
- `order_seeder.dfy` (`OrderSeeder`): the `orders` and `order_items` tables in class `OrderStore`. `SeedOrder` is
  the per-order loop, which accumulates the total under a loop invariant. `Run` makes the fifteen calls, and the
  random draws are its parameters.

Money is `real`, so sums and the 20% discount are exact. Quantities are `int`.

## Model

| member | source | states |
|---|---|---|
| `Text.LowerStr` | frontend/src/app/products/page.tsx:64 | lower-casing keeps the length and lower-cases each character (ASCII capitals move down by 32) |
| `Text.LowerStrIdempotent` | frontend/src/app/products/page.tsx:64 | lower-casing an already lower-cased string changes nothing |
| `Text.Includes` | frontend/src/app/products/page.tsx:67-68 | a match is never longer than the string searched, and the empty needle always matches |
| `Text.IncludesIffOccurs` | frontend/src/app/products/page.tsx:67-68 | `includes` holds exactly when the needle occurs at some offset of the string |
| `Text.IncludesEmpty` | frontend/src/app/products/page.tsx:67 | every string includes the empty string |
| `ProductsPage.KeepMatching` | frontend/src/app/products/page.tsx:65-69 | the filtered list is never longer than the input, and each kept product comes from the input and matches the term |
| `ProductsPage.KeepMatchingMembers` | frontend/src/app/products/page.tsx:65-69 | a product is kept iff it is in the input and its lower-cased name or description includes the term; a kept product keeps every copy the input holds, and a dropped one keeps none |
| `ProductsPage.FilterProducts` | frontend/src/app/products/page.tsx:60-70 | an empty search term returns the product list unchanged; any result is an order-preserving subsequence of the products, never longer |
| `ProductsPage.FilterMembers` | frontend/src/app/products/page.tsx:60-70 | a product is shown iff it is in the list and its lower-cased name or description contains the lower-cased term; a shown product appears as many times as in the list |
| `ProductsPage.CaseInsensitive` | frontend/src/app/products/page.tsx:64-68 | terms with the same lower-case form select the same products |
| `ProductsPage.LoweredTermSameResult` | frontend/src/app/products/page.tsx:64 | searching for the lower-cased term gives the same result as the term itself |
| `CheckoutPage.Subtotal` | frontend/src/app/checkout/page.tsx:43 | with non-negative prices and quantities the sum of the line amounts is non-negative |
| `CheckoutPage.ReduceSubtotal` | frontend/src/app/checkout/page.tsx:43 | the page's `reduce` from an accumulator adds exactly the sum of all line amounts to it |
| `CheckoutPage.Total` | frontend/src/app/checkout/page.tsx:43-45 | the page's `reduce` subtotal plus shipping equals the sum of the line amounts plus 7.50; with non-negative prices and quantities the total is at least 7.50 |
| `CheckoutPage.PlaceOrder` | frontend/src/app/checkout/page.tsx:47-54 | placing the order succeeds iff the selected method is "cod", and reports an error otherwise |
| `CheckoutPage.DefaultMethodPlacesOrder` | frontend/src/app/checkout/page.tsx:23 | the initial selection is "cod", so placing the order without changing it succeeds |
| `CheckoutPage.SubtotalAppend` | frontend/src/app/checkout/page.tsx:43 | the subtotal over all lines distributes over concatenation of line lists |
| `CheckoutPage.SampleOrderTotal` | frontend/src/app/checkout/page.tsx:26-45 | the sample order's subtotal is 280.48 and its total 287.98 |
| `CartPage.RemoveItem` | frontend/src/app/cart/page.tsx:56-58 | every remaining line was in the bag and has a different id |
| `CartPage.RemoveItemKeepsOthers` | frontend/src/app/cart/page.tsx:56-58 | removal keeps exactly the lines with another id, each with as many copies as the bag holds, in their original order; lines with the id are all gone |
| `CartPage.ClampedQuantity` | frontend/src/app/cart/page.tsx:64 | the new quantity is quantity + delta when that is at least 1, and 1 otherwise |
| `CartPage.UpdateQuantity` | frontend/src/app/cart/page.tsx:61-67 | same length; lines with the id get the clamped quantity (≥ 1) and keep every other field; all other lines are unchanged |
| `CartPage.ToggleCheck` | frontend/src/app/cart/page.tsx:69-75 | same length; lines with the id have `isChecked` flipped and nothing else changed; all other lines are unchanged |
| `CartPage.TransformsKeepQuantitiesPositive` | frontend/src/app/cart/page.tsx:56-75 | if every quantity is at least 1, none of remove, update-quantity or toggle brings one below 1 |
| `CartPage.ToggleTwice` | frontend/src/app/cart/page.tsx:69-75 | toggling the same id twice restores the list |
| `CartPage.Total` | frontend/src/app/cart/page.tsx:87-91 | the total is never negative, is at least subtotal − discount, and is either 0 or subtotal − discount |
| `CartPage.Checked` | frontend/src/app/cart/page.tsx:83 | the selected lines are exactly the ticked lines of the bag, each with as many copies as the bag holds, in their original order |
| `CartPage.SubtotalAppend` | frontend/src/app/cart/page.tsx:81-85 | the subtotal of two groups of lines is the sum of their subtotals |
| `CartPage.Subtotal` | frontend/src/app/cart/page.tsx:81-85 | a bag with no ticked line has subtotal 0 |
| `CartPage.ReduceSubtotal` | frontend/src/app/cart/page.tsx:81-85 | the page's `reduce` from an accumulator adds exactly the sum of the ticked lines' amounts to it |
| `CartPage.SubtotalSplit` | frontend/src/app/cart/page.tsx:81-85 | the subtotal splits around any position into prefix, that line's contribution and suffix |
| `CartPage.SubtotalIsCheckedOnly` | frontend/src/app/cart/page.tsx:81-85 | the bag's subtotal is the sum of price × quantity over the ticked lines only (the checkout subtotal of those lines) |
| `CartPage.SubtotalNonNegative` | frontend/src/app/cart/page.tsx:81-85 | with non-negative prices and quantities the subtotal is non-negative |
| `CartPage.SubtotalReplace` | frontend/src/app/cart/page.tsx:81-85 | changing one line alone moves the subtotal by the change in that line's contribution |
| `CartPage.ToggleChangesOnlyAt` | frontend/src/app/cart/page.tsx:69-75 | toggling an id that occurs once changes the line at its position, only in `isChecked`, and no other line |
| `CartPage.ToggleMovesSubtotal` | frontend/src/app/cart/page.tsx:69-85 | toggling a line moves the subtotal by exactly that line's amount, down if it was ticked and up if not |
| `CartPage.Save20Applies` | frontend/src/app/cart/page.tsx:87-96 | for a code lower-casing to "save20" the discount is 0.20 × subtotal, and the total is 0.80 × a non-negative subtotal |
| `CartPage.OtherCodeNoDiscount` | frontend/src/app/cart/page.tsx:97-100 | any other code gives discount 0, so the total is the subtotal floored at 0 |
| `CartPage.CouponDiscount` | frontend/src/app/cart/page.tsx:93-100 | for a non-negative subtotal the stored discount lies between 0 and the subtotal |
| `CartPage.CouponIgnoresCase` | frontend/src/app/cart/page.tsx:94 | "SAVE20" and "Save20" lower-case to the accepted code |
| `CartPage.DiscountIsNotRecomputed` | frontend/src/app/cart/page.tsx:87-101 | the discount is fixed when the coupon is applied: after removing half of a 200.00 bag, the total is 60.00, not 0.80 × 100.00 |
| `CartPage.SampleCartSubtotal` | frontend/src/app/cart/page.tsx:25-50 | the opening bag's subtotal is 280.48, because the unticked chair is not counted |
| `CartPage.PageState.constructor` | frontend/src/app/cart/page.tsx:25-54 | the page opens with the sample lines, an empty coupon box and discount 0 |
| `CartPage.PageState.ShownSubtotal` | frontend/src/app/cart/page.tsx:81-85 | the subtotal the page computes with `reduce` is the sum over the ticked lines |
| `CartPage.PageState.ShownTotal` | frontend/src/app/cart/page.tsx:87-91 | the total the page shows is never negative |
| `CartPage.PageState.HandleRemoveItem` | frontend/src/app/cart/page.tsx:56-59 | the lines become the filtered lines; the coupon text and discount are untouched; quantities stay ≥ 1 |
| `CartPage.PageState.HandleUpdateQuantity` | frontend/src/app/cart/page.tsx:61-67 | the lines become the clamped update; the coupon text and discount are untouched; quantities stay ≥ 1 |
| `CartPage.PageState.HandleToggleCheck` | frontend/src/app/cart/page.tsx:69-75 | the lines become the toggled lines; the coupon text and discount are untouched |
| `CartPage.PageState.SetCouponCode` | frontend/src/app/cart/page.tsx:53 | typing replaces the coupon text only |
| `CartPage.PageState.HandleApplyCoupon` | frontend/src/app/cart/page.tsx:93-101 | applied iff the code lower-cases to "save20"; the discount becomes 0.20 × the current subtotal, or 0 otherwise; right after success the total is 0.80 × a non-negative subtotal |
| `CartController.CartOf` | backend/app/Http/Controllers/CartController.php:17 | the cart found belongs to the user; none found means no cart of the user exists |
| `CartController.ItemsOf` | backend/app/Http/Controllers/CartController.php:19 | the listed rows are exactly the rows of that cart, unchanged |
| `CartController.RowOf` | backend/app/Http/Controllers/CartController.php:39-41 | the row found has that cart and product; none found means no such row exists |
| `CartController.ValidateStore` | backend/app/Http/Controllers/CartController.php:32-35 | a store request passes iff the product id is present and exists and the quantity is present, an integer and ≥ 1; otherwise it is a validation error |
| `CartController.ValidateQuantity` | backend/app/Http/Controllers/CartController.php:63-65 | an update request passes iff the quantity is present, an integer and ≥ 1; otherwise it is a validation error |
| `CartController.Authorize` | backend/app/Http/Controllers/CartController.php:67-71 | not found iff there is no such row; forbidden iff the row's cart is not the caller's; otherwise the row itself |
| `CartController.GetOrCreate` | backend/app/Http/Controllers/CartController.php:17 | the cart returned belongs to the user; existing carts are kept unchanged; the only cart that can appear is the next id, and the table changes only when the user had no cart |
| `CartController.AddToCart` | backend/app/Http/Controllers/CartController.php:39-53 | every old row is kept and at most the next row id is added; afterwards the cart holds a row for the product; rows of other carts or products are untouched |
| `CartController.GetOrCreateIdempotent` | backend/app/Http/Controllers/CartController.php:17 | a cart is created only when the user has none; afterwards the user owns exactly one cart, and a second lookup returns it and changes nothing |
| `CartController.AddToCartConsistent` | backend/app/Http/Controllers/CartController.php:33-53 | adding keeps one row per (cart, product) and every quantity ≥ 1 |
| `CartController.AddToExistingRow` | backend/app/Http/Controllers/CartController.php:43-45 | an existing row gets the requested quantity added; no row is created, its price and product stay, other rows are untouched |
| `CartController.AddNewRow` | backend/app/Http/Controllers/CartController.php:46-52 | without an existing row exactly one row is inserted, with the requested quantity and the given current price |
| `CartController.AddTwiceMerges` | backend/app/Http/Controllers/CartController.php:39-53 | adding a product twice (q1 at p1, then q2 at p2) leaves one row with q1 + q2 units at the first price p1 |
| `CartController.CartStore.FirstOrCreate` | backend/app/Http/Controllers/CartController.php:17 | returns the user's cart and creates one only if none exists; the invariants hold |
| `CartController.CartStore.Index` | backend/app/Http/Controllers/CartController.php:15-25 | gets or creates the caller's cart and returns exactly its rows; the item table is untouched |
| `CartController.CartStore.Store` | backend/app/Http/Controllers/CartController.php:30-56 | an invalid request is a validation error and changes nothing (not even the cart table); otherwise the cart is got or created and the item table becomes the merge-or-insert at the product's current price |
| `CartController.CartStore.AddRow` | backend/app/Http/Controllers/CartController.php:39-53 | the item table becomes the merge-or-insert of the specification, at the product's current price; the returned row has that cart and product; the invariants hold |
| `CartController.CartStore.Update` | backend/app/Http/Controllers/CartController.php:61-76 | validation error, then not found, then forbidden, each leaving the table as it was; on success only that row's quantity changes |
| `CartController.CartStore.Destroy` | backend/app/Http/Controllers/CartController.php:81-92 | not found or forbidden delete nothing; on success exactly that row is removed and all others are untouched |
| `OrderSeeder.Amount` | backend/database/seeders/OrderAndItemsSeeder.php:38-52 | with non-negative quantities and prices the accumulated order total is non-negative |
| `OrderSeeder.NewLines` | backend/database/seeders/OrderAndItemsSeeder.php:40-49 | one line per picked product, for that order, with the drawn quantity and the product's price at creation |
| `OrderSeeder.Pick` | backend/database/seeders/OrderAndItemsSeeder.php:37 | the picked products are the products at the drawn positions |
| `OrderSeeder.AppendOrderLines` | backend/database/seeders/OrderAndItemsSeeder.php:44-49 | inserting one order's lines leaves the lines of every other order as they were |
| `OrderSeeder.SingleLineOrder` | backend/database/seeders/OrderAndItemsSeeder.php:40-54 | an order of 2 units at 10.00 has one line at 10.00 and totals 20.00 |
| `OrderSeeder.DrawnLinesShape` | backend/database/seeders/OrderAndItemsSeeder.php:29-49 | a valid draw gives an order for a customer, with a non-cancelled status, min(n, products) ∈ [1, 5] lines of distinct products, quantities in [1, 3], catalogue prices and the sum as total |
| `OrderSeeder.OrderStore.SeedOrder` | backend/database/seeders/OrderAndItemsSeeder.php:28-55 | appends the order and its lines; the order's stored total is the sum of quantity × price over the lines |
| `OrderSeeder.OrderStore.Run` | backend/database/seeders/OrderAndItemsSeeder.php:17-57 | no customers or no products: nothing is created; otherwise exactly 15 orders, each shaped as above with total = sum of its lines; earlier orders and their lines are kept |

## Left out

- `OrderController`, `OrderItemController` and `ProductController` are not part of this model. They are plain ORM CRUD, and parts of `OrderController` refer to undefined variables, so its behaviour cannot be stated.
- `UserAndProductSeeder`, `CartAndItemsSeeder` and `SellerAccountSeeder` are not part of this model: they only generate random fixtures.
- Authentication, routes, the HTTP clients, toasts, `localStorage`, layout components and `toFixed(2)` display rounding are not modelled. The caller's user id is a parameter.
- The mocked `getProducts` with its delay, loading and error states is not modelled. The product list is a parameter of the filter.
- Concurrency is not modelled. The find-then-create in `store` is racy under parallel requests, and the seeder's per-order atomicity comes from a database transaction. Both are modelled as sequential steps.
- JavaScript numbers and PHP floats are not modelled. Money is an exact `real`, so rounding drift is not represented.
- Randomness is not modelled. Each customer, status, line count, product pick and quantity is a `Draw` given to `Run`. `ValidDraw` states the ranges that the random helpers guarantee.
- `toLowerCase` is modelled as ASCII lower-casing only. Unicode case mapping is not modelled.
- `CartController.CartStore.Index` returns the cart's rows without the joined product data (`with('product')`).
- `CartController.CartStore.Store` returns the affected row's id rather than the JSON response. Status codes and messages appear only as the `Error` variants.
- `CartController.Authorize` assumes that the user ids compared by `!==` have the same PHP type.
- `CartPage.CartLine` omits `image_url`, which only affects display.
- `handleRemoveItem` filters the `cartItems` captured by the render closure instead of using an updater. Run sequentially, this gives the same list.
- `OrderSeeder.OrderStore.Run` requires distinct product ids, as the `products` primary key guarantees.
- Order ids and cart-item ids are table positions or auto-increment counters. The database's id allocation is not modelled.
- The checkout page's disabled payment options are not modelled separately. Any method other than "cod" is an error.
- A product id that does not exist fails validation (422); `store` has no separate not-found error.
- An unknown coupon only sets the discount to 0 and shows a toast; there is no other invalid-coupon signal.
- Order status transitions are not checked anywhere in the modelled code, and no check rejects an empty order.
- Integer width is not modelled. Quantities are unbounded `int`, so the `+=` in `store` never overflows the database column and the column's out-of-range error is not represented.
- `CartController.CartStore.Valid` assumes the tables are written only by these handlers. The cart-and-items seeder inserts carts without checking for an existing one, so re-seeding can give a user two carts, after which `firstOrCreate` returns the first; that state is outside the model.
- `CartController.GetOrCreate` requires the next cart id to be unused, as auto-increment guarantees.
