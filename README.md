# Session-backed shopping cart

This project models the `Cart` class of a small Django shop (cart/cart.py)
and proves properties of that model. A `Cart` is built once per request
from the request's session. It keeps its line items in a dictionary
stored under one session key. The dictionary maps a product id to an
entry `{quantity, price}`. The cart can add, remove and iterate entries,
report the total quantity (`__len__`) and the total price, and clear itself.

Module layout:

- `CartItems` (cart_items.dfy): products, line items and the key order of
  the dictionary. It also has the catalog lookup and the fields iteration
  attaches to an entry.
- `CartSums` (cart_sums.dfy): `Sum` walks the dictionary's keys in order,
  which is how the source's `sum(...)` reads it. `Total` is an order-free
  sum over the mapping, and the lemmas connect the two.
- `SessionCart` (session_cart.dfy): the classes `Session`, `CartDict` (the
  dictionary object under the cart's key) and `Cart`, with one method per
  operation of the source.
- `CartScenarios` (cart_scenarios.dfy): client methods that run whole
  requests. Each one checks, from the contracts alone, what the cart holds
  afterwards.

Choices in the model:

- A Python dictionary is a key sequence in insertion order plus a map.
  `CartDict.Valid` states that the two agree. Deleting a key removes it
  from the sequence. Re-adding that key puts it at the end.
- The session's dictionary and `Cart.cart` are one object, so a `CartDict`
  is a class. Two carts on one session share it. After `Clear` the session
  no longer holds the dictionary, but the cleared `Cart` still does, and
  its `Add` and `Remove` go on changing that detached dictionary.
- Money (`Decimal`) is an `int` counted in the smallest unit of the price
  column, so 9.99 is 999. `str(product.price)` at cart/cart.py:30 and
  `Decimal(...)` at cart/cart.py:66 and cart/cart.py:77 keep the value.
- A cart key is `str(product.id)`. `str` is injective on integers, so the
  model keys the dictionary by the id itself.
- The catalog query `Product.objects.filter(id__in=...)` is a map from id to
  product. It is passed to `Iterate`. `Keyed` states that each row sits under
  its own id.
- Assigning or deleting a session key marks a Django session modified. So
  the constructor sets `modified` when it stores a new empty cart, and
  `Clear` sets it. `del session[key]` on a missing key raises `KeyError`.
  `Clear` returns `KeyError` in that case and changes nothing.
- `__iter__` is a generator. The model runs it to the end and returns the
  yielded entries as a sequence.

Behaviour of the code a reader might not expect:

- An entry whose product is missing from the catalog is still yielded by
  iteration, with no `product` field. It is not skipped.
- Iteration works on a shallow copy, so its writes to `product`, `price` and
  `total_price` land in the live entries. An entry keeps a product
  attached by an earlier iteration even when a later lookup does not find
  it. A later `add` does not refresh a stale `total_price`.
- `add` does not validate `quantity`. With `update_quantity` a zero or
  negative quantity is stored as given, and such entries stay in the cart.
- Calling `clear` twice raises `KeyError` the second time.

## Model

| member | source | states |
|---|---|---|
| `SessionCart.Cart.constructor` | cart/cart.py:12-21 | If the session's cart is absent or empty, a fresh empty dictionary is stored in the session, used by the cart, and the session is marked modified. Otherwise the cart uses the session's own dictionary object and changes nothing. |
| `SessionCart.Cart.Add` | cart/cart.py:23-38 | A new id gets an entry with the product's price at the end of the key order. The quantity is then overwritten (`update_quantity`) or increased by `quantity`, with no sign check. An existing entry keeps its stored price. Every other entry is unchanged, the session is marked modified, and both sums move by exactly the entry's change. |
| `SessionCart.Cart.Save` | cart/cart.py:40-42 | The session is marked modified and still holds the same cart. |
| `SessionCart.Cart.Remove` | cart/cart.py:44-49 | Afterwards the id is not in the cart, that key is spliced out of the order with every other key keeping its place, and both sums drop by the removed entry's share. An absent id changes nothing and leaves `modified` as it was. |
| `SessionCart.Cart.Iterate` | cart/cart.py:51-68 | Yields exactly one record per entry, in key order, including entries with no catalog match. Each record equals the live entry after decoration. Keys, quantities, prices and both sums are unchanged. |
| `SessionCart.Cart.AttachProducts` | cart/cart.py:53-62 | The catalog product of every id found is written into that id's live entry. Entries not found keep what they had. |
| `SessionCart.Cart.PriceEntries` | cart/cart.py:64-68 | Every live entry gets `total_price` = price × quantity. The records are the entries in key order. |
| `SessionCart.Cart.Len` | cart/cart.py:70-72 | Equals the order-free total of quantities over all entries, not the number of distinct products. 0 for an empty cart. |
| `SessionCart.Cart.TotalPrice` | cart/cart.py:74-79 | Equals the order-free total of stored price × quantity over all entries. 0 for an empty cart. |
| `SessionCart.Cart.Clear` | cart/cart.py:81-84 | With the key present: the key is gone and the session is marked modified. With it absent: `KeyError`, and nothing changes. |
| `CartItems.Without` | cart/cart.py:47-48 | Deleting a key keeps every other key and no duplicates. An absent key leaves the order unchanged. Relative order is stated by `WithoutSplices`. |
| `CartItems.WithoutSplices` | cart/cart.py:47-48 | Deleting a key at position i gives exactly the keys before i followed by the keys after i, so every remaining key keeps its relative place. |
| `CartItems.DictionaryRemove` | cart/cart.py:47-48 | Deleting a key from a well-formed dictionary leaves a well-formed dictionary. |
| `CartItems.WithoutAppended` | cart/cart.py:27-48 | Deleting the key that was just appended gives back the previous key order. |
| `CartItems.Matching` | cart/cart.py:53-55 | The lookup returns exactly the catalog rows whose ids are in the cart. |
| `CartItems.DecorateAll` | cart/cart.py:58-67 | After iteration the key set, each quantity and each price are as before. Each `total_price` is price × quantity. The product is the catalog's when found, and otherwise what the entry already had. |
| `CartItems.DecorateAllIdempotent` | cart/cart.py:51-68 | A second iteration with nothing in between changes nothing, so it yields the same records. |
| `CartSums.TotalAt` | cart/cart.py:70-79 | Any one entry's share can be taken out of the total. This gives the drop after a removal. |
| `CartSums.TotalUpdate` | cart/cart.py:23-38 | Storing an entry under an id changes the total by exactly the new share minus the old share (0 when the id was absent). |
| `CartSums.TotalCongruent` | cart/cart.py:70-79 | Two mappings with the same keys whose entries agree on the summed quantity have the same total. |
| `CartSums.SumCongruent` | cart/cart.py:70-79 | The ordered sum depends only on the entries of the keys it walks. |
| `CartSums.SumIsTotal` | cart/cart.py:70-79 | Walking a dictionary in key order counts every entry exactly once, so the ordered sum is the order-free total. |
| `CartSums.IterationKeepsTotals` | cart/cart.py:51-79 | Iteration changes neither the total quantity nor the total price. |
| `CartScenarios.AddThenRemoveRestores` | cart/cart.py:23-49 | Adding a new id and then removing it restores the dictionary, its key order and both sums. |

## Left out

- Len: models `__len__` (cart/cart.py:70-72), not the built-in `len()`.
  `len(cart)` raises `ValueError` when `__len__` returns a negative sum,
  which `add` with `update_quantity` and a negative quantity makes
  reachable. It raises `OverflowError` when the sum exceeds `sys.maxsize`.
  The model returns the unbounded sum in both cases.
- Iterate: does not model the sharing between yielded records and the
  cart. The source's copy is shallow and `yield item` hands out the live
  inner dictionaries (cart/cart.py:58-68), so a later `add` shows through a
  record and a write into a record lands in the cart. The model's records
  are values equal to the entries at the end of the iteration.

- The Django session machinery (persistence, cookies, other session keys)
  is not modelled. The session is an in-memory object holding only the
  cart's key and the `modified` flag. The setting `CART_SESSION_ID` is that
  one key.
- Serialising the session is not modelled. After an iteration the live
  entries hold `Product` objects and `Decimal` prices, which a JSON session
  serialiser would refuse when the modified session is saved.
- The database query is not modelled. The catalog is a map handed to
  `Iterate`, and products carry only an id and a price (no display fields).
- `Decimal` arithmetic is exact in the model. Python's default context
  rounds results to 28 significant digits, and malformed price strings
  (which would raise in `Decimal(...)`) cannot occur in the model.
- Generator laziness: a consumer that stops early leaves later entries
  undecorated, and a mutation between two yields is not modelled.
- Concurrent requests on one session are not modelled.
- products/views.py and products/urls.py are page rendering and routing
  with no cart logic. They are not part of this model.
