# Inventory and point-of-sale save logic, in Dafny

This project models the save-time rules of a small retail record-keeping
application (products, stock, clients, purchases, sales). Three `save`
methods carry all of its logic:

- `SalesTransaction.save` gives a transaction without a slug one, derived from
  the client's name and the current time to the second.
- `SalesLineTransaction.save` captures the line's price (the product's current
  price when the line's own price is unset or zero), stores
  `value = quantity * price`, and decrements the product's inventory row.
- `PurchaseLine.save` stores the line, then adds its quantity to the product's
  inventory row, creating the row at zero if there is none.

Modules:

- `Outcomes` (outcomes.dfy): `Option` and `Result`.
- `Clock` (clock.dfy): a clock reading and its 14-digit `%Y%m%d%H%M%S`
  rendering, with the parser that inverts it.
- `Stock` (stock.dfy): the `Inventory` table as a map from product to count,
  one posting (receipt or issue) as a pure step, and the table as a fold over
  the posting history.
- `Sales` (sales.dfy): price capture, line valuation and slug assignment as
  pure functions.
- `Models` (models.dfy): class `Store`, which holds the inventory, transaction,
  sales-line and purchase-line tables. Its methods are the three saves, and it
  keeps a ghost history of postings. `Store.Valid()` ties the inventory to the
  replay of that history. It also requires every stored line to be valued and
  its references to exist, and every slug to be unique.
  `SaleScenario` walks through one purchase, one sale and a second save of
  the same sale. `SameSecondScenario` saves two transactions of one client in
  the same second, then saves the refused one again later.

Money is integer cents. The price and value columns are two-place decimals,
and an integer quantity times a two-place decimal is exact. Quantities are
`nat`, since all three quantity columns are positive-integer columns; a
negative in-memory quantity, refused only when its row is written, is listed
under "Left out". The
clock reading and `slugify` are parameters of `SaveTransaction`.

Behaviour of the code that the model keeps:

- A sale larger than the stock is refused when the inventory row is written,
  because the count is a positive-integer column. It is modelled as
  `NegativeQuantity`, with nothing changed.
- A sales line of quantity zero is accepted.
- The sales-line save writes the inventory decrement before the line. If
  writing the line then fails because its transaction is missing, the
  decrement stays. Each statement is taken as committed on its own.
- Two transactions of one client saved in the same second derive the same
  slug, and the unique column refuses the second (`DuplicateSlug`). The slug
  is assigned to the object before the write, so the refused object keeps it,
  and saving that object again is refused again. `SameSecondScenario` shows
  both.

## Model

| member | source | states |
|---|---|---|
| Clock.Digits | app/models.py:86 | each timestamp field is rendered as exactly `width` decimal digits, zero-padded |
| Clock.DigitsRoundTrip | app/models.py:86 | reading a zero-padded field back gives the number that was rendered |
| Clock.Timestamp | app/models.py:86 | the `%Y%m%d%H%M%S` rendering of a valid reading is 14 characters, all digits |
| Clock.TimestampRoundTrip | app/models.py:86 | parsing the 14-digit timestamp gives back the same reading, so no information to the second is lost |
| Clock.TimestampInjective | app/models.py:86 | two readings render to the same timestamp if and only if they are equal to the second |
| Stock.Post | app/models.py:110-172 | one inventory adjustment: a purchase is always accepted and adds its quantity to the row, from zero when there is none; a sale is accepted if and only if the row exists and covers the quantity, and then subtracts it; the rows afterwards are exactly the old rows plus the posted product, and no other product's count changes |
| Stock.NetFlow | app/models.py:104-173 | for `Replay`, the fold of `Post` over the history of saves: after any accepted history, a product has an inventory row if and only if it was purchased at least once, and its count plus all sold quantities equals all purchased quantities |
| Stock.FirstReceipt | app/models.py:169-173 | the first purchase of `q` for a product creates its row at zero and leaves exactly `q` on hand |
| Stock.PostedTwice | app/models.py:104-173 | saving the same line twice moves the count by twice its quantity, since nothing records that it was already posted |
| Stock.IssueAccepted | app/models.py:110-112 | a sale is accepted if and only if the product has a row and its purchases cover all its sales including this one; then only that product's count drops, by the line's quantity |
| Sales.Priced | app/models.py:104-107 | the stored line keeps the draft's product, quantity and transaction; an unset or zero price becomes the product's price, any other price is kept; value is quantity times price to the cent |
| Sales.ResaveKeepsPrice | app/models.py:105-107 | saving a stored line again keeps its captured price and value whatever the product's price has become, if the captured price is not zero |
| Sales.ResaveRepricesZero | app/models.py:105-107 | a stored line whose captured price is zero is re-priced at the product's current price on its next save |
| Sales.SlugSource | app/models.py:86 | the string given to `slugify` is the client's name, a dash, then the 14-digit timestamp, from which the reading can be parsed back |
| Sales.AssignSlug | app/models.py:84-86 | a non-empty slug is kept; an empty one becomes `slugify` of the client's name, a dash and the timestamp |
| Sales.SlugAssignedOnce | app/models.py:85-86 | once a non-empty slug is assigned, later saves at any time and under any client name leave it unchanged |
| Sales.SlugSourceInjective | app/models.py:86 | for one client, the strings given to `slugify` are equal if and only if the two saves read the same clock value to the second |
| Models.Store.Quantity | app/models.py:41-43 | the stored inventory count is present if and only if the product was ever purchased, and equals purchases minus sales |
| Models.Store.SaveTransaction | app/models.py:84-87 | a missing client fails with no change; otherwise the slug is assigned to the returned header and the row is written, unless another transaction holds that slug (refused, no table change, the header still carries the assigned slug); the store invariant, including unique slugs, is kept |
| Models.Store.SaveSalesLine | app/models.py:104-114 | a missing product, a missing inventory row or a count smaller than the quantity fails with no change; otherwise the new inventory is the old one with the sale posted (exactly that product's count drops by the quantity), and the priced line is stored unless its transaction is missing; no other table changes |
| Models.Store.SavePurchaseLine | app/models.py:169-173 | a missing product or purchase header fails with no change; otherwise the line is stored and the new inventory is the old one with the purchase posted (exactly that product's count rises by the quantity), from zero when it had no row; no other table changes |

## Left out

- `Debt`, `Payment`, `Expense` and `ExpenseTransaction` are plain records: the code never recomputes `amount_due` or `is_paid`.
- Creating or editing products, clients, suppliers and purchase headers has no logic, so these are fixed when a `Store` is built. Product price changes are therefore seen only through the two re-save lemmas.
- `created_at`, `updated_at` and `date` columns, `__str__`, translated labels and e-mail validation carry no logic.
- app/admin.py is presentation configuration and is not part of this model.
- `slugify` is an arbitrary function parameter and `datetime.now()` a clock-reading parameter. Years are limited to 1000-9999, the range in which `%Y` gives four digits.
- `datetime.now()` reads naive local time. Readings repeat when daylight saving time ends or the clock is set back, so two saves an hour apart can hand `slugify` the same string. The model speaks only of equal readings, not of the real time between saves.
- Models.Store.SaveSalesLine: the line object is not returned on failure. The code assigns `price` and `value` to it before the inventory lookup, so a refused line keeps the captured price; the model does not capture that in-memory state.
- Cascading deletes, database transactions and concurrent saves are not modelled. Each statement is taken as committed on its own, so an enclosing atomic block, which would roll back the partial sales-line save, is not captured.
- When a save refers to several missing rows, the model reports one of them. The database raises a single integrity error whose wording depends on the backend.
- Models.Store.SaveSalesLine: a negative in-memory quantity, and a price or value beyond the 10-digit price and 12-digit value columns, are refused only when the line is written at app/models.py:114. By then the count has already changed at :111-112 and stays changed (a negative quantity raises it). The model does not capture this: the draft quantity is a `nat` and prices and values are unbounded.
- Models.Store.Quantity: inventory rows written other than by the two line saves are not modelled. This covers a row created or edited directly or through the admin (app/models.py:41-43), and any row that exists before the first save. The store starts with an empty table. The fold property (a row exactly for purchased products, count equal to purchases minus sales) speaks of a store changed only by the three saves.
- Models.Store.SavePurchaseLine: the upper bound 2147483647 of the positive-integer inventory column is not modelled; the model lets the count grow without limit.
- Models.Store.SaveTransaction: the 50-character limit of the slug column is not modelled.
