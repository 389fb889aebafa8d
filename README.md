# Bakery order pricing — a verified model

This project models the order handler of a small bakery's ordering backend
(`backend/app.py`). The bakery sells two fixed products: a pack of ten
loaves collected at the shop (id 1, 5.00) and a Friday home-delivery bundle
(id 2, 14.00). A customer submits a cart of `(id, qty)` lines, a mode
(`pickup` or `delivery`) and an optional address. `POST /orders` then:

1. refuses an empty cart;
2. refuses the whole cart if any line is not the one product the mode allows
   (id 2 for delivery, id 1 otherwise);
3. for delivery, refuses a missing, empty or whitespace-only address and
   schedules delivery for the next Friday on or after today;
4. reads the prices of the cart's products from the `products` table,
   refusing a product the table does not hold, and adds up price × qty;
5. optionally opens a payment checkout session, refusing the order if that
   fails;
6. stores the order header and one line item per cart line.

The Dafny modules follow that structure:

- `Calendar` (`calendar.dfy`): dates as Python date ordinals, `weekday()`,
  and `next_friday`.
- `Text` (`text.dfy`): `str.strip()` and the characters `str.isspace()`
  accepts.
- `Catalog` (`catalog.dfy`): products with integer-cent prices, the two
  seeded rows, the `products` table as a class whose start-up re-seed
  rewrites it, and the id-restricted lookup.
- `Orders` (`orders.dfy`): the request and order datatypes, the
  specification `PlaceOrder` (the answer for every request, as the checks
  `CheckCart` followed by the pricing `PriceCart`), and the handler
  `CreateOrder` with its two loops (`AddUp` for the total and `StoreLines`
  for the line items), proved equal to `PlaceOrder`.
- `OrderProperties` (`order_properties.dfy`): what the handler promises,
  proved about `PlaceOrder`: the order of the checks, all-or-nothing
  rejection, the address rule, the delivery date, the total as the catalog
  sum, the stored lines, and the seeded catalog's prices.
- `Wrappers` (`wrappers.dfy`): the `Option` type.

Modelling choices:

- "Today" is a parameter of `PlaceOrder` and `CreateOrder` instead of a read
  of the clock. A date is its ordinal, with 0001-01-01 as ordinal 1 (a
  Monday) and 9999-12-31 as ordinal 3652059. Its weekday is
  `(ordinal + 6) % 7`, with Monday as 0.
- Prices and totals are integer cents (500 and 1400). The code keeps them as
  floating-point euros.
- The payment provider is a parameter of type `Checkout`. Its values are: no
  session attempted, a session created with a URL, or a session that failed
  with a reason. The code calls the provider only when its feature flag is on
  and a secret is set. The flag is off as written, so the no-session case is
  the one the code takes as configured.
- The `products` table is a `map<int, Product>` field of the class
  `ProductTable`. The stored order is the returned `Order` value: the header
  fields plus the line items.
- The code's whitespace test is `str.strip()`. It is modelled with Python's
  whitespace set, including the Unicode spaces.
- The address stored with an order is the given address, or `""` when none
  was given. This matches the code's `address or ""`.
- The code does not check that the customer's name and phone are non-empty.
  The request validation only requires that they are present. The model
  does not check them either.

## Model

| member | source | states |
|---|---|---|
| `Calendar.Weekday` | backend/app.py:71 | the weekday is between 0 and 6, and date ordinal 1 is a Monday (0) |
| `Calendar.WeekdayAhead` | backend/app.py:71-74 | k days after a date, the weekday is the date's weekday plus k, modulo 7 |
| `Calendar.NextFriday` | backend/app.py:68-74 | the result is a Friday, 0 to 6 days after today, and no day before it in that span is a Friday; it equals today exactly when today is a Friday; it stays within the representable dates |
| `Text.StripLeading` | backend/app.py:97 | removes exactly the leading whitespace: the result is a suffix of the input, starts with a non-space, and everything removed is whitespace |
| `Text.StripTrailing` | backend/app.py:97 | removes exactly the trailing whitespace: the result is a prefix of the input, ends with a non-space, and everything removed is whitespace |
| `Text.Strip` | backend/app.py:97 | the stripped string has no whitespace at either end, and is empty exactly when the input is all whitespace (or empty) |
| `Catalog.Lookup` | backend/app.py:103-107 | the lookup holds an id exactly when it was asked for and the table holds it, with the table's name and price |
| `Catalog.ProductTable.constructor` | backend/app.py:28-32 | opening the table keeps the rows an earlier run left |
| `Catalog.ProductTable.Reseed` | backend/app.py:45-50 | afterwards the table holds exactly products 1 and 2 at 500 and 1400 cents, whatever it held before |
| `Text.IsSpace` | backend/app.py:97 | among ASCII characters, exactly space, tab, newline, carriage return, vertical tab, form feed and the four separators 0x1C-0x1F are whitespace |
| `Orders.AllowedId` | backend/app.py:91 | the allowed id is a seeded product, and it is the delivery bundle exactly when the mode is delivery |
| `Orders.AddressBlank` | backend/app.py:97 | an address is blank exactly when it is missing or holds only whitespace (the empty string included) |
| `Orders.StoredAddress` | backend/app.py:143 | a given address is stored as given and a missing one as the empty string, so the stored text is all whitespace exactly when the given address is blank |
| `Orders.ItemIds` | backend/app.py:103 | the set holds every line's id and nothing that is not some line's id |
| `Orders.Mismatched` | backend/app.py:91-93 | the collected ids all differ from the allowed id, each comes from a cart line, and the list is empty exactly when every line has the allowed id |
| `Orders.AddUp` | backend/app.py:109-113 | the loop gives up exactly when some line's product has no price; otherwise it returns the sum of price × qty over the cart |
| `Orders.StoreLines` | backend/app.py:145-148 | one line per cart line, in cart order, each with the line's id, its qty and the looked-up price |
| `Orders.CheckCart` | backend/app.py:88-98 | no failure exactly when the cart is non-empty, every line has the mode's id, and a delivery has an address that is not all whitespace; any failure is one of the three request errors |
| `Orders.PriceCart` | backend/app.py:103-151 | the order is placed exactly when every line's product is in the table and no checkout session failed, and otherwise the error is invalid product or payment failure; a placed order keeps the mode, delivery date, customer name and phone, stores the address as given (or "" when missing), carries the session URL exactly when a session was created, and has one line per cart line |
| `Orders.PlaceOrder` | backend/app.py:86-151 | an order is placed exactly when the checks pass, every product is in the table and no checkout session failed; a placed order has a delivery date exactly when it is a delivery |
| `Orders.CreateOrder` | backend/app.py:86-151 | the handler's answer equals the specification `PlaceOrder` for the current table, request, date and payment outcome |
| `OrderProperties.EmptyCartAlwaysRejected` | backend/app.py:88-89 | an empty cart gets the empty-cart error, whatever the mode, address, table or payment |
| `OrderProperties.OneWrongLineRejectsCart` | backend/app.py:91-94 | a single line with the wrong product rejects the whole cart with the incompatible-products error, whatever the other lines and the address |
| `OrderProperties.IncompatibleProductIff` | backend/app.py:88-94 | the incompatible-products error is given exactly when the cart is non-empty and some line's id is not the mode's id |
| `OrderProperties.AddressRequiredIff` | backend/app.py:96-98 | the address error is given exactly when a non-empty, compatible cart is a delivery and its address is missing or all whitespace; pickup never gets it |
| `OrderProperties.InvalidProductIff` | backend/app.py:103-112 | the invalid-product error is given exactly when all earlier checks pass and some line's product is not in the table |
| `OrderProperties.PlacedIff` | backend/app.py:115-139 | a checkout failure is reported exactly when every check passed; the order is placed exactly when every check passed and no session failed; it carries a checkout URL exactly when a session was created |
| `OrderProperties.PickupIgnoresAddress` | backend/app.py:96-101 | for pickup, replacing the address changes neither the verdict nor any field of the order except the stored address |
| `OrderProperties.DeliveryDateOnlyForDelivery` | backend/app.py:96-101 | a placed order has a delivery date exactly when it is a delivery; that date is a Friday, 0 to 6 days ahead, and is today when today is a Friday |
| `OrderProperties.SumUsesCartPricesOnly` | backend/app.py:103-113 | the total depends only on the prices of the products in the cart, so the id-restricted lookup prices the cart exactly like the whole table |
| `OrderProperties.SumIsLinesTotal` | backend/app.py:109-113 | the line-by-line total equals Σ unit price × qty over the stored lines |
| `OrderProperties.LinesTotalSnoc` | backend/app.py:145-148 | appending a line adds its price × qty to the lines' total |
| `OrderProperties.TotalIsCatalogSum` | backend/app.py:109-113 | a placed order's total is Σ table price × qty over the cart, and equals the total of its stored lines |
| `OrderProperties.LinesRecordCart` | backend/app.py:145-148 | a placed order stores one line per cart line, in cart order, with that line's id and qty and the table price used for the total |
| `OrderProperties.SeedNeverInvalidProduct` | backend/app.py:46-50 | against the seeded table the invalid-product error never occurs, because the compatibility check already limits the cart to a seeded id |
| `OrderProperties.SumAtOnePrice` | backend/app.py:109-113 | when every line has the same price, the total is that price times the total quantity |
| `OrderProperties.QtySumAtLeastLength` | backend/app.py:56 | with every quantity at least 1, the total quantity is at least the number of lines |
| `OrderProperties.SeedTotal` | backend/app.py:47-50 | against the seeded table a placed order costs 500 cents per pickup pack or 1400 per delivery bundle, and is never free |
| `OrderProperties.PickupScenario` | backend/app.py:86-151 | two pickup packs with an empty address give a 1000-cent order with no delivery date and one stored line |
| `OrderProperties.DeliveryScenario` | backend/app.py:86-151 | one delivery bundle to a real address gives a 1400-cent order delivered on the next Friday |
| `OrderProperties.RejectedScenarios` | backend/app.py:88-98 | a pickup pack for delivery with a blank address is an incompatible product, not a missing address; a blank delivery address is refused; an empty cart is refused |

## Left out

- The HTTP layer is not modelled: the FastAPI application, CORS, and the `/` and `/products` routes.
- The SQLite storage mechanics are not modelled: table creation, SQL text, commits, and the `orders`/`order_items` inserts. The returned `Order` value stands for the header and lines that are written. The order id (`lastrowid`) is not modelled because it is assigned by the database.
- The payment provider call is not modelled. Only its outcome is a parameter. The line items sent to it and the float-to-cents rounding of `unit_amount` are left out.
- Floating-point prices and totals are not modelled. Prices are integer cents, so float rounding of the total is not captured.
- The clock (`date.today()`) and the ISO formatting of the delivery date are not modelled. Today is a parameter, and the date stays an ordinal.
- The request validation is taken as given: required fields, integer types, and a mode that is `pickup` or `delivery` (a datatype here). The rule `qty >= 1` is the predicate `WellFormed`, and only the lemmas whose claim needs it assume it.
- The order status, the admin list/export/status endpoints, and spreadsheet logging do not appear in this handler. They are not part of this model. The spreadsheet connection script `import json, re.py` is not part of this model either.
- Orders.PlaceOrder and Orders.CreateOrder: quantities are unbounded integers here. In the code, a quantity beyond SQLite's 64-bit INTEGER range makes the `order_items` insert raise after the `orders` row was written. A quantity beyond floating-point range makes `price * qty` raise before anything is stored. Either way the request fails with a server error, while the model places the order.
- Concurrent requests are not modelled: each request runs alone against a fixed table. In the code every request shares one module-level cursor (app.py:28-29), and the handler runs in a thread pool. Another request's statement can run between this request's `execute` and `fetchall` at app.py:105-107, or before `lastrowid` is read at app.py:144. A correct cart can then be priced from another request's rows, or answer "Produto inválido", and the stored line items can name another order's id. `SeedNeverInvalidProduct` and the other properties hold for one request at a time.
