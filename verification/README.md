# Shopping cart model in Dafny

This project models the `ShoppingCart` class of a small PHP repository. A
cart keeps, for each item name, a line item holding a unit price and a
quantity. It offers four operations: add an item, remove an item, compute
the total quantity, and compute the total price. It also exposes its items
as a name-to-line-item view.

The model is functional. A `Cart` is an immutable value holding the line
items in insertion order, as the ordered PHP array does. Each operation is a
pure function that returns a new cart:

- `ShoppingCart.AddItem` returns `Result<Cart, Error>`. A non-positive
  quantity gives `Failure(InvalidQuantity)`, which plays the part of the
  exception the class throws.
- `ShoppingCart.RemoveItem` returns the new cart.
- `ShoppingCart.GetItems` is the map view that callers see.
- The two totals are recursive sums (`TotalQuantity`, `TotalPrice`). The
  methods `GetTotalQuantity` and `GetTotalPrice` compute them with the same
  accumulate-from-zero loop as the class.

Files:

- `wrappers.dfy`: `Option` and `Result`.
- `shopping_cart.dfy`: module `ShoppingCart`. It holds the data model, the
  cart invariant (`Valid`: distinct names, every quantity at least 1), the
  operations, and lemmas about the entry sequence.
- `cart_theorems.dfy`: module `CartTheorems`. It states how each call
  changes the totals and shows that both mutating operations preserve the
  invariant.
- `cart_sessions.dfy`: module `CartSessions`. It covers runs of add and
  remove calls, and the scenarios of the repository's unit tests. A failed
  add inside a run is treated as caught by the caller, so the cart is left
  unchanged.

Where the code and its description differ, the model follows the code. The
code never checks the price, so a negative or zero price is accepted. On a
repeated name the stored price is kept, so the first price wins.

## Model

| member | source | states |
|---|---|---|
| `ShoppingCart.Empty` | app/ShoppingCart.php:9 | a new cart satisfies the invariant, has no items, and has total quantity 0 and total price 0 |
| `ShoppingCart.AddItem` | app/ShoppingCart.php:18-35 | fails with `InvalidQuantity` exactly when quantity <= 0; for a name already present, only that name's quantity grows and its price stays the same; for a new name, exactly `{price, quantity}` is inserted under it; the number of names grows by one only for a new name; no other name changes |
| `ShoppingCart.Find` | app/ShoppingCart.php:25 | the presence test: returns the position of the first entry with the name, or reports that no entry has it |
| `ShoppingCart.RemoveItem` | app/ShoppingCart.php:42-45 | the items view loses exactly the given name and nothing else; removing an absent name returns the identical cart |
| `ShoppingCart.GetTotalQuantity` | app/ShoppingCart.php:52-59 | the loop that accumulates from 0 returns the sum of the stored quantities |
| `ShoppingCart.GetTotalPrice` | app/ShoppingCart.php:66-73 | the loop that accumulates from 0 returns the sum of price times quantity over the stored items |
| `ShoppingCart.ItemsLookup` | app/ShoppingCart.php:80-83 | the items view holds a name exactly when an entry carries it, and maps it to that entry's line item |
| `CartTheorems.AddItemTotalQuantity` | app/ShoppingCart.php:25-33 | a successful add raises the total quantity by exactly the quantity added |
| `CartTheorems.AddItemTotalPrice` | app/ShoppingCart.php:25-33 | a successful add raises the total price by the added quantity times the stored price, if the name was present, or else the given price |
| `CartTheorems.RemoveItemTotalQuantity` | app/ShoppingCart.php:42-45 | removing a name lowers the total quantity by its stored quantity, or by 0 when the name is absent |
| `CartTheorems.RemoveItemTotalPrice` | app/ShoppingCart.php:42-45 | removing a name lowers the total price by its price times quantity, or by 0 when the name is absent |
| `CartTheorems.RemoveItemCount` | app/ShoppingCart.php:42-45 | removing a present name lowers the number of names by one; removing an absent name leaves the number unchanged |
| `CartTheorems.AddItemPreservesValid` | app/ShoppingCart.php:21-33 | adding keeps names unique and every quantity at least 1 |
| `CartTheorems.RemoveItemPreservesValid` | app/ShoppingCart.php:44 | removing keeps names unique and every quantity at least 1 |
| `CartTheorems.TotalQuantityBounds` | app/ShoppingCart.php:52-59 | in a valid cart the total quantity is at least the number of names, and is 0 exactly when the cart is empty |
| `CartSessions.AddAllTotalQuantity` | app/ShoppingCart.php:18-59 | after any run of add calls, the total quantity has grown by the sum of the accepted quantities |
| `CartSessions.AddAllPreservesValid` | app/ShoppingCart.php:21-33 | any run of add calls keeps the invariant |
| `CartSessions.AddAllCollapsesByName` | app/ShoppingCart.php:25-33 | after a run of add calls, a name is present exactly when it was present before or some call for it was accepted; its quantity is the earlier quantity plus every accepted quantity for it; its price is the earlier price, or else the price of the first accepted call for it |
| `CartSessions.RemoveAllKeys` | app/ShoppingCart.php:42-45 | after a run of remove calls, the names left are exactly the earlier names minus the removed ones |
| `CartSessions.RemoveEveryNameEmpties` | tests/units/ShoppingCartTest.php:44-65 | removing every name in a cart gives back the freshly constructed cart |
| `CartSessions.ScenarioTwoFruits` | tests/units/ShoppingCartTest.php:16-65 | Apel x2 plus Pisang x3 gives two names, total quantity 5 and a positive total price; removing Pisang leaves one name; then removing Apel leaves none |
| `CartSessions.ScenarioSameSize` | tests/units/ShoppingCartTest.php:70-82 | two carts with two different names each have the same number of names |
| `CartSessions.ScenarioTotalPrice` | tests/units/ShoppingCartTest.php:98-112 | Laptop 15000000 x1 plus Mouse 200000 x2 gives total price 15400000 |
| `CartSessions.ScenarioZeroQuantity` | tests/units/ShoppingCartTest.php:123-131 | adding quantity 0 fails with `InvalidQuantity`, whose message is "Quantity must be greater than 0." |
| `CartSessions.ScenarioSameNameTwice` | tests/units/ShoppingCartTest.php:143-151 | Apel 10000 x2 then Apel 15000 x3 gives the single line item Apel with price 10000 and quantity 5 |

## Left out

- Floating-point prices. The class documents the price as a float, and the total price starts from `0.0`. The model uses exact `int` prices, which is also what the unit tests use.
- PHP integer overflow. PHP turns an integer sum that overflows into a float. The model uses unbounded integers.
- PHP dynamic typing and array-key coercion. The model takes quantities as integers, so a fractional quantity such as 0.5 (which the `<= 0` test would accept) is not modelled. Names are opaque strings, so the merging of numeric-string keys with integer keys is not modelled.
- The exception class. The model has a single `InvalidQuantity` error and keeps only its message text.
- Copying and aliasing of the array that `getItems` returns. The model's cart is an immutable value, so the view cannot be used to change the cart.
- CartTheorems.RemoveItemTotalQuantity: stated only for carts whose names are distinct. Every cart the class can build has distinct names, which `AddItemPreservesValid` and `RemoveItemPreservesValid` establish.
- CartTheorems.RemoveItemTotalPrice: stated only for carts whose names are distinct, for the same reason.
