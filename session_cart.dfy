/** The session-backed shopping cart of cart/cart.py: a `Cart` object holds a
    reference to the request's session and to the dictionary stored under the
    cart's session key, and updates both in place. */
module SessionCart {
  import opened CartItems
  import CartSums

  /** What `del session[key]` reports; it raises `KeyError` when the key is
      missing. */
  datatype Outcome = Done | KeyError

  /** The dictionary object stored under the cart's session key. The session
      and every `Cart` built on it refer to the same object. */
  class CartDict {
    var order: seq<ProductId>
    var items: map<ProductId, LineItem>

    ghost predicate Valid()
      reads this
    {
      IsDictionary(order, items)
    }

    constructor ()
      ensures order == [] && items == map[]
    {
      order := [];
      items := map[];
    }
  }

  /** A request's session, reduced to what the cart touches: the value under
      the cart's key (`null` when the key is absent) and the `modified` flag.
      Assigning or deleting a session key marks the session modified, as a
      Django session does. */
  class Session {
    var cart: CartDict?
    var modified: bool

    constructor (cart: CartDict?)
      ensures this.cart == cart && !modified
    {
      this.cart := cart;
      modified := false;
    }
  }

  class Cart {
    const session: Session
    /** `self.cart`: the dictionary found or stored at construction. It stays
        this object even after `Clear` removes it from the session. */
    const cart: CartDict

    ghost predicate Valid()
      reads cart
    {
      cart.Valid()
    }

    /** `Cart(request)`: use the session's cart, or store and use a new empty
        one when the key is absent or holds an empty dictionary. */
    constructor (session: Session)
      requires session.cart != null ==> session.cart.Valid()
      modifies session
      ensures this.session == session && Valid()
      ensures old(session.cart) != null && old(session.cart.items) != map[] ==>
                && cart == old(session.cart)
                && session.cart == cart
                && session.modified == old(session.modified)
      ensures old(session.cart) == null || old(session.cart.items) == map[] ==>
                && fresh(cart)
                && cart.order == [] && cart.items == map[]
                && session.cart == cart
                && session.modified
    {
      var existing := session.cart;
      if existing == null || existing.items == map[] {
        existing := new CartDict();
        // session[CART_SESSION_ID] = {}: the session marks itself modified
        session.cart := existing;
        session.modified := true;
      }
      this.session := session;
      this.cart := existing;
    }

    /** `__len__()`: the sum of the quantities of all entries, not the number
        of distinct products. */
    function Len(): (n: int)
      requires Valid()
      reads cart
      ensures n == CartSums.Total(cart.items, Quantity)
      ensures cart.items == map[] ==> n == 0
    {
      CartSums.SumIsTotal(cart.order, cart.items, Quantity);
      CartSums.Sum(cart.order, cart.items, Quantity)
    }

    /** `get_total_price()`: the sum of price times quantity over all
        entries, with each entry's price as stored when it was added. */
    function TotalPrice(): (total: Money)
      requires Valid()
      reads cart
      ensures total == CartSums.Total(cart.items, Subtotal)
      ensures cart.items == map[] ==> total == 0
    {
      CartSums.SumIsTotal(cart.order, cart.items, Subtotal);
      CartSums.Sum(cart.order, cart.items, Subtotal)
    }

    /** `save()`: mark the session modified. */
    method Save()
      modifies session
      ensures session.modified && session.cart == old(session.cart)
    {
      session.modified := true;
    }

    /** `add(product, quantity, update_quantity)`: an id not in the cart gets
        an entry with quantity 0 and the product's current price; then the
        quantity is overwritten or increased by `quantity`, with no check of
        its sign. */
    method Add(product: Product, quantity: int := 1, updateQuantity: bool := false)
      requires Valid()
      modifies cart, session
      ensures Valid()
      ensures var id := product.id;
        var before := if id in old(cart.items) then old(cart.items[id]) else NewLine(product.price);
        && cart.items == old(cart.items)[id := before.(
             quantity := if updateQuantity then quantity else before.quantity + quantity)]
        && cart.order == if id in old(cart.items) then old(cart.order) else old(cart.order) + [id]
      ensures session.modified && session.cart == old(session.cart)
      ensures var id := product.id;
        && Len() == old(Len()) - old(if id in cart.items then cart.items[id].quantity else 0)
                    + cart.items[id].quantity
        && TotalPrice() == old(TotalPrice()) - old(if id in cart.items then Subtotal(cart.items[id]) else 0)
                           + Subtotal(cart.items[id])
    {
      var id := product.id;
      ghost var oldItems := cart.items;
      if id !in cart.items {
        cart.items := cart.items[id := NewLine(product.price)];
        cart.order := cart.order + [id];
      }
      var line := cart.items[id];
      if updateQuantity {
        line := line.(quantity := quantity);
      } else {
        line := line.(quantity := line.quantity + quantity);
      }
      cart.items := cart.items[id := line];
      Save();
      assert cart.items == oldItems[id := line];
      CartSums.TotalUpdate(oldItems, Quantity, id, line);
      CartSums.TotalUpdate(oldItems, Subtotal, id, line);
    }

    /** `remove(product)`: delete the product's entry; an id not in the cart
        changes nothing, not even the session's `modified` flag. */
    method Remove(product: Product)
      requires Valid()
      modifies cart, session
      ensures Valid()
      ensures product.id !in cart.items
      ensures cart.items == old(cart.items) - {product.id}
      ensures cart.order == Without(old(cart.order), product.id)
      ensures forall i :: 0 <= i < |old(cart.order)| && old(cart.order)[i] == product.id ==>
                cart.order == old(cart.order)[..i] + old(cart.order)[i + 1..]
      ensures session.modified == (old(session.modified) || product.id in old(cart.items))
      ensures session.cart == old(session.cart)
      ensures Len() == old(Len()) - old(if product.id in cart.items then cart.items[product.id].quantity else 0)
      ensures TotalPrice() == old(TotalPrice()) - old(if product.id in cart.items then Subtotal(cart.items[product.id]) else 0)
    {
      var id := product.id;
      if id in cart.items {
        forall i | 0 <= i < |cart.order| && cart.order[i] == id
          ensures Without(cart.order, id) == cart.order[..i] + cart.order[i + 1..]
        {
          WithoutSplices(cart.order, id, i);
        }
        CartSums.TotalAt(cart.items, Quantity, id);
        CartSums.TotalAt(cart.items, Subtotal, id);
        DictionaryRemove(cart.order, cart.items, id);
        cart.items := cart.items - {id};
        cart.order := Without(cart.order, id);
        Save();
      } else {
        assert cart.items - {id} == cart.items;
      }
    }

    /** `iter(cart)`: attach each catalog product found for the cart's ids,
        then yield every entry in key order with its `total_price`. The copy
        the source iterates is shallow, so both loops write into the live
        entries; an entry with no catalog match is yielded all the same. */
    method Iterate(catalog: map<ProductId, Product>) returns (records: seq<LineItem>)
      requires Valid() && Keyed(catalog)
      modifies cart
      ensures Valid()
      ensures cart.order == old(cart.order)
      ensures cart.items == DecorateAll(old(cart.items), catalog)
      ensures |records| == |cart.order|
      ensures forall j :: 0 <= j < |records| ==> records[j] == cart.items[cart.order[j]]
      ensures Len() == old(Len()) && TotalPrice() == old(TotalPrice())
    {
      ghost var before := cart.items;
      AttachProducts(catalog);
      records := PriceEntries();
      assert cart.items == DecorateAll(before, catalog);
      CartSums.IterationKeepsTotals(before, catalog);
    }

    /** The first loop of `iter(cart)`: every catalog product whose id is in
        the cart is written into that id's live entry. */
    method AttachProducts(catalog: map<ProductId, Product>)
      requires Valid() && Keyed(catalog)
      modifies cart
      ensures Valid()
      ensures cart.order == old(cart.order)
      ensures cart.items.Keys == old(cart.items).Keys
      ensures forall k :: k in cart.items ==> cart.items[k] == Attach(old(cart.items)[k], k, catalog)
    {
      ghost var before := cart.items;
      var pending := Matching(catalog, cart.items.Keys);
      while pending != {}
        invariant cart.order == old(cart.order)
        invariant cart.items.Keys == before.Keys
        invariant forall p :: p in pending ==> p.id in before && p.id in catalog && catalog[p.id] == p
        invariant forall k :: k in before ==>
                    cart.items[k] == if k in catalog && catalog[k] in pending then before[k]
                                     else Attach(before[k], k, catalog)
        decreases pending
      {
        var p :| p in pending;
        cart.items := cart.items[p.id := cart.items[p.id].(product := Some(p))];
        pending := pending - {p};
      }
    }

    /** The second loop of `iter(cart)`: walk the entries in key order, set
        each live entry's `total_price` and yield it. */
    method PriceEntries() returns (records: seq<LineItem>)
      requires Valid()
      modifies cart
      ensures Valid()
      ensures cart.order == old(cart.order)
      ensures cart.items.Keys == old(cart.items).Keys
      ensures forall k :: k in cart.items ==> cart.items[k] == Priced(old(cart.items)[k])
      ensures |records| == |cart.order|
      ensures forall j :: 0 <= j < |records| ==> records[j] == cart.items[cart.order[j]]
    {
      var copy := cart.order;
      ghost var attached := cart.items;
      records := [];
      var i := 0;
      while i < |copy|
        invariant 0 <= i <= |copy|
        invariant cart.order == copy
        invariant cart.items.Keys == attached.Keys
        invariant forall k :: k in attached ==>
                    cart.items[k] == if k in copy[..i] then Priced(attached[k]) else attached[k]
        invariant |records| == i
        invariant forall j :: 0 <= j < i ==> records[j] == Priced(attached[copy[j]])
      {
        var id := copy[i];
        assert id !in copy[..i];
        var line := cart.items[id];
        line := line.(totalPrice := Some(line.price * line.quantity));
        cart.items := cart.items[id := line];
        records := records + [line];
        assert copy[..i + 1] == copy[..i] + [id];
        i := i + 1;
      }
      assert copy[..i] == copy;
    }

    /** `clear()`: delete the cart's key from the session and mark it
        modified. The key being absent already raises `KeyError`, and then
        nothing changes. */
    method Clear() returns (outcome: Outcome)
      modifies session
      ensures old(session.cart) == null ==>
                outcome == KeyError && session.cart == null && session.modified == old(session.modified)
      ensures old(session.cart) != null ==>
                outcome == Done && session.cart == null && session.modified
    {
      if session.cart == null {
        return KeyError;
      }
      // del session[CART_SESSION_ID] marks the session modified, then save()
      session.cart := null;
      session.modified := true;
      Save();
      outcome := Done;
    }
  }
}
