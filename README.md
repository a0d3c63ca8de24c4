# ArtisanEdge marketplace core in Dafny

This project models the rule sets at the heart of the ArtisanEdge marketplace, a Django shop in
which artisans sell products, customers fill carts and place orders, influencers propose
collaborations to artisans, and artisans work in teams. A small browser-side `AuthSystem` keeps
its own accounts in `localStorage`.

The model covers:

- the two data migrations that put product prices into a rupee band (`ClampMigration`, `AssignMigration`);
- the exact money arithmetic they use, including round-half-even quantizing to cents (`Money`);
- the product model's helpers and the product form's cleaners (`Catalog`, `ProductForms`);
- the `usd_to_inr` template filter (`CurrencyFilters`);
- carts and their figures (`Carts`), and the cart views (`CartViews`);
- order ids and order items (`Orders`), and checkout and order confirmation (`OrderViews`);
- the tables the cart and order views share (`Shop.Store`);
- users, roles, the access decorators and the sign-up form (`Accounts`, `AccessDecorators`, `SignupForms`);
- the product add, edit and soft-delete views and who may edit a product (`ProductManagement`);
- artisan teams (`Teams`);
- collaboration requests, active collaborations and their posts (`Collaborations`);
- the browser `AuthSystem` (`BrowserAuth`).

Conventions:

- Money is a whole number of cents, since every price column is a two-place Decimal. The order's
  tax and total carry a third decimal place in the source, so they are `real` cents.
- Each view is a method on the tables it touches (`Shop.Store`, `Teams.TeamRegistry`,
  `Collaborations.CollabBoard`, `BrowserAuth.AuthSystem`). It returns an outcome value naming
  the branch it took, and its `ensures` state the whole new state in terms of the old one.
- A view begins with the decision of its decorators (`AccessDecorators.Gate`).
- Each migration is a loop over an `array` of rows, and each is proved against a function that
  gives one row's new value.
- Randomness (`uuid4`), the clock (`today`, `createdAt`) and the browser's current URL are
  parameters.
- `Basics` holds Python's `strip()` and the identifier types.

## Model

| member | source | states |
|---|---|---|
| Basics.Strip | artisans/team_management.py:33 | `str.strip()` is never longer than its input and leaves no whitespace at either end; Basics.StripTrimmed adds that it is the slice after the leading whitespace |
| Basics.StripLeftSpec | artisans/team_management.py:33 | `lstrip` keeps a suffix of the input that is empty or starts with a non-space, and every character it drops is whitespace |
| Basics.StripRightSpec | artisans/team_management.py:33 | `rstrip` keeps a prefix of the input that is empty or ends with a non-space, and every character it drops is whitespace |
| Basics.StripTrimmed | artisans/team_management.py:33-34 | `strip()` returns a contiguous piece of the input with no whitespace at either end |
| Basics.StripEmptyIffBlank | artisans/team_management.py:36-38 | a stripped value is empty exactly when the input is all whitespace, so "Team name is required" fires exactly for blank names |
| Money.RoundHalfEven | products/migrations/0002_clamp_prices_to_inr.py:12-13 | `quantize(Decimal('0.01'))` with the default context's ROUND_HALF_EVEN, applied to the exact quotient: the result is within half a unit of the exact quotient, and an exact tie goes to the even neighbour |
| Money.QuantizeRatio | products/migrations/0002_clamp_prices_to_inr.py:12-13 | `(n / d).quantize(0.01)` fails exactly when `d` is 0, and otherwise gives the cent amount nearest to n/d, for either sign of d |
| Money.RoundHalfEvenMonotone | products/migrations/0002_clamp_prices_to_inr.py:12-13 | rounding half-even never reverses the order of two amounts |
| Money.QuantizeRatioMonotone | products/migrations/0005_add_price_fields_and_assign.py:22-23 | with a positive rate, a larger rupee amount never converts to a smaller dollar amount |
| Money.RoundHalfEvenUnique | products/migrations/0002_clamp_prices_to_inr.py:12-13 | any integer within half a unit of the quotient that is even on a tie is the half-even rounding, so the rounding is fully determined by that contract |
| Money.RoundHalfEvenScale | products/migrations/0002_clamp_prices_to_inr.py:12-13 | rounding depends only on the value of the ratio: scaling numerator and denominator by the same positive factor changes nothing |
| Money.QuantizeRatioScale | products/migrations/0002_clamp_prices_to_inr.py:12-13 | quantizing to cents depends only on the value of n/d, not on how the fraction is written |
| Money.QuantizeRatioMonotoneCross | products/migrations/0002_clamp_prices_to_inr.py:12-13 | two positive-denominator ratios in order quantize in the same order, whatever their denominators |
| Money.DivideQuantized | products/migrations/0002_clamp_prices_to_inr.py:8-13 | `(a / b).quantize(Decimal('0.01'))` of two Decimal values fails exactly when b is 0, and for positive b lies within half a cent of 100·a/b |
| Money.DivideQuantizedMonotone | products/migrations/0005_add_price_fields_and_assign.py:22-23 | dividing by a positive Decimal rate and quantizing keeps the order of the amounts divided |
| ClampMigration.PriceBounds | products/migrations/0002_clamp_prices_to_inr.py:8-13 | the rate, floor and ceiling are Decimal settings (fractions allowed); the bounds are `min_inr/rate` and `max_inr/rate`, each within half a cent; a zero rate raises before any row is read |
| ClampMigration.DefaultBounds | products/migrations/0002_clamp_prices_to_inr.py:8-13 | with the defaults 83, 500 and 5000 the bounds are 6.02 and 60.24 |
| ClampMigration.FractionalRateBounds | products/migrations/0002_clamp_prices_to_inr.py:8-13 | a fractional rate such as 83.25 gives bounds 6.01 and 60.06 |
| ClampMigration.BoundsOrdered | products/migrations/0002_clamp_prices_to_inr.py:12-13 | for a positive rate, a Decimal floor at or below the Decimal ceiling gives a lower bound at or below the upper one |
| ClampMigration.Clamp | products/migrations/0002_clamp_prices_to_inr.py:17-23 | a price below the band becomes the lower bound and one above it the upper bound; an in-band price is unchanged |
| ClampMigration.ClampedRowWithinBounds | products/migrations/0002_clamp_prices_to_inr.py:17-33 | after clamping, the price lies in the band, and a truthy cost lies between the lower bound and the price |
| ClampMigration.ClampedRowFrame | products/migrations/0002_clamp_prices_to_inr.py:24-30 | a None or zero cost is left untouched, and no column but price and cost changes |
| ClampMigration.ClampedRowIdempotent | products/migrations/0002_clamp_prices_to_inr.py:15-33 | clamping a clamped row changes nothing, so running the migration twice has no further effect |
| ClampMigration.ClampProduct | products/migrations/0002_clamp_prices_to_inr.py:16-35 | one loop iteration gives the clamped row, and the `changed` flag holds exactly when the row differs from the one read |
| ClampMigration.ClampPrices | products/migrations/0002_clamp_prices_to_inr.py:5-35 | a zero rate leaves the table as it was; otherwise every row becomes its clamped row, and a row is saved exactly when it changed |
| AssignMigration.OriginalInr | products/migrations/0005_add_price_fields_and_assign.py:9-15 | the id-derived original rupee price lies in [500, 5000] |
| AssignMigration.DiscountPercent | products/migrations/0005_add_price_fields_and_assign.py:17 | the id-derived discount lies in [5, 40] |
| AssignMigration.SellingInr | products/migrations/0005_add_price_fields_and_assign.py:19 | the selling rupee price is `orig * (100 - disc) / 100` truncated to an integer, and is strictly below the original price |
| AssignMigration.SellingNotAboveOriginal | products/migrations/0005_add_price_fields_and_assign.py:22-27 | with a positive rate the dollar selling price never exceeds the dollar original price |
| AssignMigration.OriginalWithinClampBounds | products/migrations/0005_add_price_fields_and_assign.py:9-22 | the dollar original price lies within the band the clamp migration computes from the same rate and the same rupee floor and ceiling |
| AssignMigration.DependsOnlyOnId | products/migrations/0005_add_price_fields_and_assign.py:8-29 | the four assigned columns depend only on the product's id and the rate, never on other columns |
| AssignMigration.AssignPrices | products/migrations/0005_add_price_fields_and_assign.py:8-30 | the rate is a Decimal setting (fractions allowed); a zero rate fails on the first row and leaves the table unchanged; otherwise each row gets original, discount and selling prices, and `price` equal to the selling price |
| Catalog.DiscountPercentage | products/models.py:85-89 | 0 for a None, zero or not-lower cost; otherwise the truncated percentage by which cost is below price, which lies in [0, 99] for a positive cost |
| Catalog.PriceMinIsTwoCents | products/models.py:39 | `MinValueValidator(0.01)` compares the Decimal price with the float 0.01, exactly 5764607523034235/2^59; a price passes exactly when it is at least 0.02 |
| ProductForms.CleanPrice | products/forms.py:113-118 | only a present negative price is rejected (a zero price is falsy and passes); an accepted price comes back unchanged |
| ProductForms.CleanQuantityInStock | products/forms.py:120-125 | exactly a present negative quantity is rejected; None and any value >= 0 come back unchanged |
| ProductForms.EqualOrMissingAccepted | products/forms.py:127-138 | no cost warning when either amount is missing or zero, or when the cost equals the price |
| ProductForms.ProductForm.Clean | products/forms.py:127-140 | an error is recorded on `cost_price` exactly when both amounts are truthy and the cost is above the price; `add_error` then drops that field from the cleaned data, which is returned |
| ProductForms.FormValid | products/forms.py:113-140 | a form that `is_valid()` has a stripped name of 1 to 255 characters, a price of at least two cents and a stock that is not negative; ProductForms.FormValidIff gives the converse |
| ProductForms.FormValidIff | products/forms.py:113-140 | the form accepts a product exactly when the stripped name is not blank and has at most 255 characters (the `max_length` of products/models.py:37), the price is at least two cents (the validator's float limit 0.01 lies above one hundredth, so 0.01 itself is refused), the stock is not negative, and the cost is missing, zero or at most the price |
| Catalog.InStock | products/models.py:82-83 | `in_stock()` tests the stock count; CartViews.OutOfStockIffNotInStock ties it to the add-to-cart refusal and ProductManagement.DiscontinuedNotForSale to soft deletion |
| Accounts.IsCustomer | accounts/models.py:40-41 | `is_customer()` holds exactly for the role every new account starts with |
| Accounts.IsInfluencer | accounts/models.py:37-38 | `is_influencer()` never holds of a customer |
| Accounts.IsArtisan | accounts/models.py:34-35 | `is_artisan()` never holds of an influencer or a customer |
| Accounts.IsAdmin | accounts/models.py:43-44 | `is_admin()` holds for every staff account, and a non-staff admin passes none of the other role tests |
| Accounts.RoleTestsExclusive | accounts/models.py:34-44 | at most one of `is_artisan`, `is_influencer` and `is_customer` holds, and an admin-role user passes none of them |
| Accounts.IsAdminCases | accounts/models.py:43-44 | `is_admin` holds for every staff account, and for others exactly when the role is admin |
| AccessDecorators.LoginRequired | accounts/decorators.py:7-19 | the view runs exactly for a signed-in user; anyone else goes to the sign-in page |
| AccessDecorators.RoleRequired | accounts/decorators.py:22-44 | the view runs exactly for a signed-in user with that role; anonymous visitors go to sign-in first |
| AccessDecorators.ArtisanRequired | accounts/decorators.py:47-66 | the view runs exactly for signed-in artisans; anonymous visitors go to sign-in, other users to the dashboard |
| AccessDecorators.InfluencerRequired | accounts/decorators.py:69-88 | the view runs exactly for signed-in influencers; anonymous visitors go to sign-in |
| AccessDecorators.CustomerRequired | accounts/decorators.py:91-110 | the view runs exactly for signed-in customers; anonymous visitors go to sign-in |
| AccessDecorators.AdminRequired | accounts/decorators.py:113-132 | the view runs exactly for signed-in staff accounts; the admin role is not consulted |
| AccessDecorators.OwnerOrAdminRequired | accounts/decorators.py:135-160 | the view runs for admins and staff and for every artisan; ownership is never checked |
| AccessDecorators.AdminRoleWithoutStaffRefused | accounts/decorators.py:127-129 | a user with the admin role but without `is_staff` is refused by `admin_required`, although `is_admin()` holds for them |
| AccessDecorators.NamedDecoratorsAreRoleRequired | accounts/decorators.py:47-110 | the artisan, influencer and customer decorators decide exactly as `role_required` does for their role |
| AccessDecorators.RoleGatesExclusive | accounts/decorators.py:47-110 | no requester passes two of the artisan, influencer and customer decorators |
| SignupForms.RoleOf | accounts/forms.py:13-17 | the sign-up choices map one-to-one onto customer, artisan and influencer, so nobody can register as admin |
| SignupForms.CleanEmail | accounts/forms.py:75-79 | an email is refused exactly when it is already registered; otherwise it comes back unchanged |
| SignupForms.CleanPassword2 | accounts/forms.py:81-88 | a mismatch error is raised exactly when both passwords are given and differ; otherwise password2 comes back as it was |
| SignupForms.Save | accounts/forms.py:90-97 | the saved user's username is the email and the role is the chosen (never admin) role; nothing else changes |
| Carts.TotalPrice | cart/models.py:22-24 | `get_total_price()`, the sum of price times quantity over the lines; Carts.AddLineFigures, Shop.ClearedCartFigures and OrderViews.SumLines state how it moves and what the order records |
| Carts.ItemCount | cart/models.py:26-28 | `get_item_count()`, the sum of the quantities; Carts.ItemCountAtLeastUnique and Carts.AddLineFigures state its bounds and changes |
| Carts.UniqueProductCount | cart/models.py:30-32 | `get_unique_product_count()`, the number of lines; one line per product is the invariant Carts.AddLineWellFormed and Carts.RemoveLineWellFormed keep |
| Carts.WellFormedMoreProducts | cart/models.py:40-53 | a cart with one line per existing product and positive quantities stays so when products are added or their other columns change |
| Carts.EmptyCartFigures | cart/models.py:22-32 | an empty cart has total price, item count, unique product count and every product's quantity all 0 |
| Carts.ItemCountAtLeastUnique | cart/models.py:26-45 | with every quantity at least one, the item count is at least the number of lines |
| Carts.QuantityOfLine | cart/models.py:53 | with one line per product, the quantity of a product in the cart is that line's quantity, or 0 when there is no line |
| Carts.AddLineWellFormed | cart/views.py:54-66 | adding a positive quantity of an existing product keeps one line per product with positive quantities |
| Carts.AddLineQuantities | cart/views.py:54-66 | adding raises that product's quantity by exactly the amount added, whether by merge or by a new line, and leaves every other product's quantity unchanged |
| Carts.AddLineFigures | cart/views.py:54-66 | adding q of a product adds q items and q times its price to the total; the line count grows by one only for a product not yet in the cart |
| Carts.RemoveLineKeeps | cart/views.py:84-86 | removal keeps exactly the other products' lines, and removing an absent product leaves the cart unchanged |
| Carts.RemoveLineWellFormed | cart/views.py:84-86 | removing a product's line keeps the cart well-formed |
| Carts.RemoveLineQuantities | cart/views.py:84-86 | after removal the product's quantity is 0, and every other product's quantity is unchanged |
| Carts.SetQuantityEffect | cart/views.py:108-113 | setting an existing line to q makes that product's quantity exactly q, keeps the cart well-formed, and changes no other line or the line count |
| CartViews.AddCheckAcceptsIff | cart/views.py:34-52 | an add goes through exactly when the product exists, is active and has stock for the positive quantity asked; otherwise the first failed check names the error, in the source's order |
| CartViews.OutOfStockIffNotInStock | cart/views.py:40-42 | for an active product, the out-of-stock refusal happens exactly when `in_stock()` is false |
| CartViews.AddToCart | cart/views.py:28-72 | a refused add changes nothing; an accepted one merges the quantity into the existing line or creates a line with exactly that quantity, leaving all other lines and tables as they were |
| CartViews.MergeNotRechecked | cart/views.py:54-62 | a merge is not checked against stock as a whole: with 5 in stock and 5 in the cart, adding 5 is accepted and the cart then holds 10 |
| CartViews.RemoveFromCart | cart/views.py:75-90 | without a cart row the view fails; with an unknown product nothing changes; otherwise only that product's line is deleted |
| CartViews.UpdateCartItem | cart/views.py:93-118 | a quantity of 0 or less deletes the line, one above the stock changes nothing, a missing line is an error, and otherwise the line's quantity is set exactly |
| CartViews.ClearCartView | cart/views.py:121-130 | without a cart row the view fails; otherwise every line of the user's cart is deleted and nothing else changes |
| Shop.Store.ClearCart | cart/models.py:34-36 | `clear()` deletes every line of the cart, keeps the cart row, and keeps the store invariant |
| Shop.ClearedCartFigures | cart/models.py:22-36 | after a clear the cart's total price, item count and unique product count are all 0 |
| Orders.FormatOrderId | orders/models.py:77-79 | a generated id has twelve characters, starts with "ORD-", and its last eight are the upper-cased hex digits, in order |
| Orders.OrderIdShape | orders/models.py:76-79 | a generated order id is twelve characters: "ORD-" followed by eight upper-case hex digits |
| Orders.OrderIdInjective | orders/models.py:79 | different random digits give different order ids |
| Orders.OrderRecord.Save | orders/models.py:76-80 | `Order.save` assigns a generated id only when the row has none, and changes nothing else |
| Orders.SavedId | orders/models.py:77-79 | an existing id is kept, and an empty one becomes the generated id |
| Orders.SavedIdStable | orders/models.py:77 | once saved, an order has a non-empty id that every later save keeps, whatever digits that save draws |
| Orders.OrderItemRecord.Save | orders/models.py:119-121 | `OrderItem.save` sets the subtotal to price times quantity, overriding what was passed, and changes nothing else |
| Orders.AssignUserForeignKey | orders/models.py:89 | the foreign key to User stores a User and refuses an artisan profile (Django raises ValueError) |
| Orders.ItemArtisanAsWrittenRaises | orders/views.py:156 | as written, the item's artisan is the product's artisan profile, which the User foreign key always refuses |
| Orders.ItemArtisanStored | orders/views.py:156 | the corrected reference, the user behind the product's artisan profile, is accepted and stored |
| OrderViews.TotalIsElevenTenths | orders/views.py:128-130 | the total is 1.1 times subtotal plus 10.00 shipping, and a non-negative subtotal gives a tax of at least 1.00 and a total of at least 11.00 |
| OrderViews.SnapshotItems | orders/views.py:152-161 | there is one item per cart line, and each records the order, the product, its name and price at order time, the line's quantity, price times quantity, and the product's artisan user |
| OrderViews.SnapshotQuantitiesPositive | orders/models.py:93-106 | items made from a well-formed cart meet the declared quantity >= 1 and start with status pending |
| OrderViews.ItemSubtotalsSumToOrder | orders/views.py:124-161 | the order's subtotal equals the sum of its items' subtotals |
| OrderViews.DecrementedStock | orders/views.py:163-165 | each product's stock drops by exactly the quantity the cart held of it, with no floor; nothing else about any product changes |
| OrderViews.StockCanGoNegative | orders/views.py:163-165 | nothing prevents negative stock: one unit in stock and two in the cart leave -1 |
| OrderViews.Checkout | orders/views.py:50-95 | a missing or empty cart changes nothing; posted shipping details are stored in the session only when all eight fields are non-empty; nothing else changes |
| OrderViews.SumLines | orders/views.py:124-126 | the loop's subtotal is the cart's total price |
| OrderViews.RecordItems | orders/views.py:152-165 | the loop appends one snapshot item per line and leaves each product's stock reduced by its line quantities |
| OrderViews.PlacedKeepsValid | orders/views.py:133-168 | after an order is placed, products keep their keys, ids and id bound, every cart (the emptied one included) stays well-formed against the decremented products, and order ids stay unique |
| OrderViews.ItemsWith | orders/views.py:152-165 | the item loop fails exactly when some line's artisan value is refused by the User foreign key, and otherwise yields one item per line |
| OrderViews.ItemsAsWrittenRaise | orders/views.py:152-156 | as written (`artisan=cart_item.product.artisan`), the loop raises for every non-empty cart |
| OrderViews.ItemsCorrectedSnapshot | orders/views.py:152-161 | with the artisan's user, the loop yields exactly one snapshot item per cart line, in cart order |
| OrderViews.OrphanOrderAsWritten | orders/views.py:133-156 | as written, a confirming POST on a non-empty cart adds only a pending order row with no items: stock, cart and shipping details stay as they were, where the corrected view writes one item per line |
| OrderViews.PlaceOrder | orders/views.py:117-171 | as corrected (see Findings): the POST branch places an order exactly when its new id is unused: one order row with the computed totals, one item per cart line, stock decremented, cart emptied and shipping details dropped; a clashing id changes nothing |
| OrderViews.ConfirmOrder | orders/views.py:98-183 | as corrected (see Findings): without shipping details or with an empty cart nothing changes; a POST creates a pending order with the computed totals and one item per line, decrements stock, empties the cart, and drops the session's shipping details |
| ProductManagement.CanEdit | products/product_management.py:20-39 | a user may edit a product exactly when they are staff, or the user behind its artisan, or a member of its team when it has one |
| ProductManagement.CanEditDependsOnOwnTeam | products/product_management.py:35-37 | only the product's own team matters, and a product without a team is editable only by staff and its artisan |
| ProductManagement.RemovedMemberLosesEdit | products/product_management.py:35-39 | a member removed from a team can no longer edit its products unless they are staff or the product's artisan |
| ProductManagement.NewProduct | products/product_management.py:63-68 | the new product belongs to the creator's artisan profile and to that profile's team when it has one, and meets the model's validators: a name of at most 255 characters, the float price limit that refuses 0.01, and a stock that is not negative |
| ProductManagement.Edited | products/product_management.py:115-120 | an edit overwrites the form's fields, meets the model's validators (the name's 255-character limit included), and keeps the owner, the team and the pricing columns |
| ProductManagement.AddedProductEditable | products/product_management.py:63-68 | the creator can edit the product they add, and so can every member of their team at that time |
| ProductManagement.AddKeepsValid | products/product_management.py:63-68 | adding a product under a fresh id keeps the store's invariants |
| ProductManagement.AddProduct | products/product_management.py:42-93 | a requester without an artisan profile gets a 404; a form the ProductForms.FormValid test accepts (a stripped name of 1 to 255 characters among its conditions) adds exactly one product under a fresh id, owned by that profile and its team; every other branch changes nothing |
| ProductManagement.ReplaceKeepsValid | products/product_management.py:115-120 | overwriting the columns of an existing product keeps the store's invariants |
| ProductManagement.EditProduct | products/product_management.py:96-144 | a missing product or a user without edit rights leaves the product untouched; a form the ProductForms.FormValid test accepts (the name's 255-character limit included) overwrites only that product's form fields; an invalid one changes nothing |
| ProductManagement.DeleteProduct | products/product_management.py:147-179 | a user without edit rights changes nothing; otherwise the delete is soft and only sets the product's status to discontinued |
| ProductManagement.StaffNeedArtisanRole | products/product_management.py:28-29 | the staff branch of the edit test is reached only by staff who are also artisans, since the artisan decorator sends other staff to the dashboard |
| ProductManagement.DiscontinuedNotForSale | products/product_management.py:164-170 | after a soft delete the product can no longer be added to any cart |
| Teams.TeamRegistry.CreateTeam | artisans/team_management.py:20-72 | a blank stripped name is refused; otherwise, atomically, the creator owns a new team, is its member with role "admin", and their artisan profile points at it; without a profile nothing changes |
| Teams.CreateKeepsConsistent | artisans/team_management.py:41-58 | a new team under the next id, with its owner as its sole "admin" member, keeps every team's owner an admin member and all team ids below the counter |
| Teams.JoinKeepsConsistent | artisans/team_management.py:141-146 | giving anyone but the owner a role in a team keeps the owner an admin member of every team |
| Teams.DepartKeepsConsistent | artisans/team_management.py:194-197 | taking anyone but the owner out of a team keeps the owner an admin member of every team |
| Teams.TeamRegistry.AddMember | artisans/team_management.py:105-167 | only a team admin gets past the check; a non-blank email of a user with an artisan profile who is not yet a member adds them with the posted role (default "member") and points their profile at the team |
| Teams.TeamRegistry.RemoveMember | artisans/team_management.py:170-209 | a request that is not a POST is refused after the artisan gate; only a team admin may remove, and never the owner; removal deletes the membership and sets the member's profile team to None, atomically |
| Teams.TeamRegistry.LeaveTeam | artisans/team_management.py:212-236 | a request that is not a POST is refused after the artisan gate; anyone but the owner may leave; leaving deletes the membership and sets the profile's team to None, atomically |
| Teams.OwnerIsTeamAdmin | artisans/team_management.py:120 | in a valid registry a team's owner passes `is_admin` and is in its member table with the role "admin", so `is_admin` holds exactly for members whose role is "admin" |
| Collaborations.OrZero | collaborations/views.py:72-73 | a commission or flat rate that was not posted becomes 0 |
| Collaborations.AdvancesTransitive | collaborations/views.py:151-168 | request changes compose: no request disappears, and a request once answered keeps its answer |
| Collaborations.AcceptAsWrittenFails | collaborations/views.py:156-164 | as written, `objects.create` raises TypeError on the `financial_terms` keyword, which names no field of ActiveCollaboration; without that keyword the row would still lack its NOT NULL start date, so no accept ever creates a row |
| Collaborations.ObjectsCreate | collaborations/views.py:156-164 | `ActiveCollaboration.objects.create` creates exactly the row passed when no keyword is unknown and the start date is given; unknown keywords raise TypeError before the insert, and a missing start date fails the insert |
| Collaborations.AcceptCallAsWritten | collaborations/views.py:156-164 | the call as written copies the request's parties, title and description, gives no start date, and passes the proposed terms under the unknown keyword `financial_terms` |
| Collaborations.AcceptedRow | collaborations/views.py:156-164 | the corrected row is the row as written, without the `financial_terms` keyword and with the start date set to the day of acceptance |
| Collaborations.AcceptedRowInsertable | collaborations/views.py:156-164 | the corrected call creates exactly the corrected row, which copies the title and the description and starts active; the proposed terms stay on the request, as the model has no column for them |
| Collaborations.CollabBoard.List | collaborations/views.py:10-33 | anonymous visitors go to sign-in and other roles to the dashboard; an influencer or artisan sees exactly the requests and collaborations they are party to |
| Collaborations.CollabBoard.RequestDetail | collaborations/views.py:97-126 | a request is shown exactly to a signed-in party to it |
| Collaborations.CollabBoard.NewRequest | collaborations/views.py:36-94 | an existing request for the same influencer and artisan is refused; otherwise one pending request is created, with a missing commission or flat rate set to 0, and nothing else changes |
| Collaborations.CollabBoard.RespondRefusal | collaborations/views.py:135-153 | accept and reject go ahead exactly for a POST by the request's own artisan on a pending request |
| Collaborations.AcceptKeepsConsistent | collaborations/views.py:156-168 | accepting a pending request keeps one request per pair, ids below the counters, each collaboration tied to a distinct accepted request of its pair, and every post on an existing collaboration |
| Collaborations.RejectKeepsConsistent | collaborations/views.py:200-203 | rejecting a pending request keeps the board consistent, since no collaboration points at a pending request |
| Collaborations.CollabBoard.Accept | collaborations/views.py:129-171 | as corrected (see Findings): a refused accept changes nothing; otherwise exactly one active collaboration is opened from the request and the request becomes accepted |
| Collaborations.CollabBoard.Reject | collaborations/views.py:174-206 | a refused reject changes nothing; otherwise only the request's status becomes rejected |
| Collaborations.CollabBoard.AddPost | collaborations/views.py:277-320 | only the collaboration's own influencer may post, and title, content and platform must be non-empty; the post is appended and nothing else changes |
| Collaborations.OneActivePerPair | collaborations/models.py:110 | at most one active collaboration opened from a request exists per influencer and artisan pair, as `unique_together` demands |
| Collaborations.ListedIffViewable | collaborations/views.py:16-26 | the list shows a request to a user exactly when its detail view opens for them |
| Collaborations.InfluencerListsDisjoint | collaborations/views.py:16-20 | two influencers with different profiles never see the same request |
| BrowserAuth.KeysDistinct | artisanapp/static/auth.js:99-104 | the users table is none of the four session keys |
| BrowserAuth.CurrentUserIn | artisanapp/static/auth.js:118-121 | `getCurrentUser` is null when signed out |
| BrowserAuth.RoleIn | artisanapp/static/auth.js:127-130 | `getUserRole` is null when signed out |
| BrowserAuth.SignedInReadsBack | artisanapp/static/auth.js:85-91 | after a login the session reads back as signed in, with that user and role, and the registered users and pending redirect unchanged |
| BrowserAuth.SignedOutReadsBack | artisanapp/static/auth.js:99-130 | after a logout nobody is signed in, no user or role is returned, no redirect is pending, and every registered user remains |
| BrowserAuth.RedirectGetAndClear | artisanapp/static/auth.js:145-157 | a stored redirect URL is returned once, and an immediate second read returns null |
| BrowserAuth.ValidateEmail | artisanapp/static/auth.js:164-167 | `validateEmail`: the string splits at an '@' and a later '.' into three non-empty runs free of whitespace and '@'; BrowserAuth.ValidateEmailIff proves this equal to the one-'@' shape |
| BrowserAuth.ShapeOfMatch | artisanapp/static/auth.js:164-167 | a string the email pattern matches has no whitespace and exactly one '@' |
| BrowserAuth.MatchOfShape | artisanapp/static/auth.js:164-167 | in a string with no whitespace and one '@', the three parts around the '@' and a later '.' are all runs of the pattern's character class |
| BrowserAuth.ValidateEmailIff | artisanapp/static/auth.js:164-167 | `validateEmail` accepts exactly strings with no whitespace and one '@', text before it, and a later '.' with text on both sides |
| BrowserAuth.ValidateEmailExamples | artisanapp/static/auth.js:164-167 | "a@b.co" is accepted and "a@b@c.d" is refused |
| BrowserAuth.SignedUpCanLogIn | artisanapp/static/auth.js:24-94 | whoever signed up can log in with the same email and password whatever the session holds, and a second sign-up with that email is refused |
| BrowserAuth.AuthSystem.IsLoggedIn | artisanapp/static/auth.js:110-112 | `isLoggedIn()` reads the stored flag; BrowserAuth.SignedInReadsBack and BrowserAuth.SignedOutReadsBack show login sets it and logout clears it |
| BrowserAuth.AuthSystem.GetCurrentUser | artisanapp/static/auth.js:118-121 | `getCurrentUser()` is null whenever the session is not signed in |
| BrowserAuth.AuthSystem.GetUserRole | artisanapp/static/auth.js:127-130 | `getUserRole()` is null whenever the session is not signed in |
| BrowserAuth.AuthSystem.HasRole | artisanapp/static/auth.js:137-139 | `hasRole(role)` never holds of a signed-out session |
| BrowserAuth.AuthSystem.Login | artisanapp/static/auth.js:69-94 | login succeeds exactly for a non-empty registered email with the identical password; success writes the flag, user and role, and failure changes nothing |
| BrowserAuth.AuthSystem.Signup | artisanapp/static/auth.js:24-61 | sign-up succeeds exactly when all fields are non-empty, the email is valid, the password has at least 6 characters, and the email is new; success stores the account and logs in, and failure changes nothing |
| BrowserAuth.AuthSystem.Logout | artisanapp/static/auth.js:99-104 | exactly the four session keys are removed |
| BrowserAuth.AuthSystem.SetRedirectUrl | artisanapp/static/auth.js:145-147 | the redirect key holds the given URL, and nothing else changes |
| BrowserAuth.AuthSystem.GetRedirectUrl | artisanapp/static/auth.js:153-157 | the stored URL, if any, is returned and its key removed |
| BrowserAuth.AuthSystem.RequireLogin | artisanapp/static/auth.js:194-201 | a signed-in user passes with nothing changed; a signed-out visitor fails and has the current page stored as the redirect target |
| CurrencyFilters.DigitsValueOfDecimalDigits | products/templatetags/currency_filters.py:18 | the decimal numeral of an integer reads back as that integer |
| CurrencyFilters.DropCommasOfGrouped | products/templatetags/currency_filters.py:18 | removing the commas from a grouped numeral gives back its digits |
| CurrencyFilters.GroupThousandsWellGrouped | products/templatetags/currency_filters.py:18 | the grouped numeral starts with a digit and its commas sit exactly at every fourth position from the end, so every group after the first has three digits and the first has one to three |
| CurrencyFilters.GroupThousandsKeepsFirst | products/templatetags/currency_filters.py:18 | grouping never puts a comma first; the output starts with the numeral's first digit |
| CurrencyFilters.FirstIsDigit | products/templatetags/currency_filters.py:18 | a grouped numeral starts with a digit |
| CurrencyFilters.RupeeMagnitude | products/templatetags/currency_filters.py:16 | for a whole-dollar amount `round(amount * 83)` is exactly 83 times the amount; the magnitude is kept apart from the sign |
| CurrencyFilters.GroupedNumeralReadsBack | products/templatetags/currency_filters.py:18 | the grouped numeral is well-grouped and reads back, without commas, as the number |
| CurrencyFilters.UsdToInr | products/templatetags/currency_filters.py:6-18 | a value `float()` rejects comes back as it was; a whole-dollar amount gives "₹", then a minus sign exactly when the amount is negative |
| CurrencyFilters.UsdToInrReadsBack | products/templatetags/currency_filters.py:11-18 | the output is "₹", then a minus sign exactly when the amount is negative, then a well-grouped numeral (starting with a digit) that reads back, without commas, as 83 times the amount's magnitude |
| CurrencyFilters.UnconvertibleUnchanged | products/templatetags/currency_filters.py:11-14 | a value `float()` cannot convert is returned unchanged |

## Left out

- Floating point: `float()` and `round()` in the currency filter take whole-dollar amounts only; `float(commission)` and `float(flat_rate)` are taken as whole hundredths.
- CurrencyFilters.UsdToInrReadsBack: covers whole-dollar amounts only. For fractional amounts the float product, round-half-even of `round()` and binary representation are not modelled.
- Collaborations.CollabBoard.NewRequest: a posted commission or flat rate that `float()` rejects would raise ValueError; the model takes these amounts as integers, so it cannot show that error. The same holds for the posted `artisan_id`: `ArtisanProfile.objects.get(id=...)` (collaborations/views.py:54) raises an uncaught ValueError for a value that is not an integer, such as the empty string of an unselected choice, while the model takes the id as an optional ArtisanId.
- CartViews.AddToCart: `int(request.POST.get('quantity', 1))` raises on a non-integer; the model takes the quantity as an integer. The same holds for CartViews.UpdateCartItem.
- Rendering, flash messages and redirect targets are collapsed into the outcome values. Read-only pages are left out: `cart_view`, the order list and detail, the team dashboard, `my_products_view`, and the detail pages of active collaborations and posts. `cart_view` can also create an empty cart row through `get_or_create`, and that row is not modelled either.
- HTTP methods other than GET and POST are not distinguished, except where a view accepts POST only (`delete_product_view`, accept, reject, add post, `remove_team_member_view`, `leave_team_view`). There the refusal of other methods is the MethodNotAllowed outcome. The cart views' POST-only check is not modelled, nor is the refusal of POST by the GET-only views (`Collaborations.CollabBoard.List` and `RequestDetail`, collaborations/views.py:11, :98).
- Django's own `login_required` (used by the team and product views) redirects to `LOGIN_URL`; the model uses the sign-in page for it, as the project's own decorator does.
- OrderViews.ConfirmOrder: `tax` and `total_amount` are kept as the exact Decimal values the view computes. Rounding to two places when the columns are saved depends on the database and is not modelled. Decimal's 28-digit context is taken as exact.
- Money.DivideQuantized: Python first rounds `a / b` to the context's 28 significant digits and then quantizes; the model quantizes the exact quotient. The two can differ only when that first rounding moves the quotient onto or across a half-cent boundary. The same holds for Money.QuantizeRatio and Money.RoundHalfEven, and so for the bounds of ClampMigration.PriceBounds and the dollar prices of AssignMigration.AssignPrices.
- Concurrency: the confirmation step runs without a transaction or locks, and the model treats each view as one sequential step. No atomicity or rollback is claimed for it.
- `Decimal` `max_digits` limits on columns are not checked.
- Product: only the columns the core reads are modelled (id, artisan, team, name, price, cost, stock, status and the three migration price columns). Images, category, description, ratings and timestamps are left out. The form is modelled only for its name, price, cost, stock and status fields.
- The team tables: artisans/models.py defines only `ArtisanProfile`, with no `team` field, and neither `ArtisanTeam` nor `ArtisanTeamMember`. Their shape in the Teams module (a team with an owner, one role per team and member, a nullable team on the profile) is inferred from the views in artisans/team_management.py and products/product_management.py.
- `Product.team` is read by `user_can_edit_product` and set by `add_product_view`, but it is not in the product model shown; it is modelled as an optional team id.
- `ArtisanTeam.has_member`, `add_member` and `remove_member` are not part of this model. Membership is a map from team to member-to-role, and removing someone who is not a member is a no-op.
- ProductManagement.AddProduct, EditProduct and DeleteProduct: the generic `except Exception` branches of `add_product_view`, `edit_product_view` and `delete_product_view` (products/product_management.py:75-76, :126-127, :176-177) catch database errors that the model's tables cannot raise, so they are not modelled.
- Teams.TeamRegistry.AddMember: `User.objects.get(email=...)` raises MultipleObjectsReturned when several users share an address, since `email` is not unique on Django's User. The model's `emailOwner` map gives one user per address, so that error is not modelled.
- CurrencyFilters.UsdToInr: for whole-dollar amounts beyond 2^53 / 83, `float()` and the float product are inexact, and `float()` overflows for amounts beyond the largest double. The model computes the exact product.
- Teams.TeamRegistry.CreateTeam: the generic `except Exception` branches, for database errors other than a missing profile, are not modelled.
- Reject: the posted `response` is written to an attribute that is not a column, so it is not stored. `responded_at` is never set by the views and is not modelled.
- Images and the URL validation of collaboration posts are not modelled; the URL is kept as posted.
- BrowserAuth: values written with `JSON.stringify` are held as structures, so malformed JSON under a key is not modelled. The password length is counted in characters, not UTF-16 code units. `createdAt` is a parameter. The DOM code (`initializeAuthUI`, `showError`, `showSuccess`, the page listeners) and `requireLogin`'s navigation are left out.
- `uuid.uuid4()` is a parameter of eight lower-case hex digits. An id that collides with an existing order makes the insert fail before anything is written (the DuplicateOrderId outcome).
- The pricing normalizer and the 50-rupee shipping that some tests expect have no counterpart in the source shown; the model follows the views (10.00 shipping and 10% tax).

## Findings

| source | as written | input that shows it | evidently intended | confidence | as-written member | corrected member |
|---|---|---|---|---|---|---|
| orders/views.py:156 | the item's `artisan` is set to `cart_item.product.artisan`, an ArtisanProfile, but `OrderItem.artisan` is a foreign key to User (orders/models.py:89), so Django raises ValueError; the order row inserted just before (orders/views.py:133) is not in a transaction, so a pending order with no items is left behind while stock, cart and shipping details stay unchanged | any confirming POST with stored shipping details and a non-empty cart | store the user behind the product's artisan profile | not executed | OrderViews.OrphanOrderAsWritten | OrderViews.ItemsCorrectedSnapshot |
| collaborations/views.py:156-164 | the ActiveCollaboration is created with `financial_terms=collab_req.proposed_terms`, but ActiveCollaboration (collaborations/models.py:57-111) has no such field, so the model constructor raises TypeError before any insert; the call also gives no `start_date`, a NOT NULL `DateField` with no default (collaborations/models.py:89), so the insert would fail even without that keyword | any accepting POST by the request's own artisan on a pending request | drop the `financial_terms` keyword (the terms stay on the request) and start the collaboration on the day of acceptance | not executed | Collaborations.AcceptAsWrittenFails | Collaborations.AcceptedRowInsertable |
