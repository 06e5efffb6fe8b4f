/** Client code that drives the cart through whole requests and checks, from
    the contracts alone, what each step leaves behind. Prices are in cents. */
module CartScenarios {
  import opened CartItems
  import opened SessionCart

  /** Two units at 9.99, then three by overwriting, then removal. */
  method AddReplaceRemove() {
    var session := new Session(null);
    var cart := new Cart(session);
    var p := Product(1, 999);
    cart.Add(p, 2);
    assert cart.Len() == 2 && cart.TotalPrice() == 1998;
    cart.Add(p, 3, true);
    assert cart.Len() == 3 && cart.TotalPrice() == 2997;
    cart.Add(p);
    assert cart.Len() == 4 && cart.cart.items[1].price == 999;
    cart.Remove(p);
    assert cart.Len() == 0 && cart.cart.items == map[];
    var records := cart.Iterate(map[]);
    assert records == [];
  }

  /** Overwriting stores zero and negative quantities as given. */
  method OverwriteWithoutValidation() {
    var session := new Session(null);
    var cart := new Cart(session);
    var p := Product(7, 250);
    cart.Add(p, 0, true);
    assert 7 in cart.cart.items && cart.cart.items[7].quantity == 0;
    cart.Add(p, -3, true);
    assert cart.Len() == -3 && cart.TotalPrice() == -750;
  }

  /** An entry whose product has left the catalog is still yielded, without a
      product, and still counts in both sums. */
  method ProductMissingFromCatalog() {
    var session := new Session(null);
    var cart := new Cart(session);
    cart.Add(Product(2, 500), 4);
    var records := cart.Iterate(map[]);
    assert cart.cart.order == [2];
    assert |records| == 1;
    assert records[0].product == None && records[0].totalPrice == Some(2000);
    assert cart.Len() == 4 && cart.TotalPrice() == 2000;
  }

  /** Iteration decorates the live entry: a later price change in the
      catalog does not reach the stored price. */
  method IterationWritesIntoTheCart() {
    var session := new Session(null);
    var cart := new Cart(session);
    cart.Add(Product(3, 100), 2);
    var catalog := map[3 := Product(3, 120)];
    var records := cart.Iterate(catalog);
    assert records[0].product == Some(Product(3, 120));
    assert cart.cart.items[3].product == Some(Product(3, 120));
    assert cart.cart.items[3].price == 100 && cart.TotalPrice() == 200;
  }

  /** Two iterations with nothing in between yield the same records. */
  method IterateTwice(session: Session, catalog: map<ProductId, Product>)
    requires session.cart != null ==> session.cart.Valid()
    requires Keyed(catalog)
    modifies session, session.cart
  {
    var cart := new Cart(session);
    ghost var stored := cart.cart.items;
    var first := cart.Iterate(catalog);
    ghost var afterFirst := cart.cart.items;
    var second := cart.Iterate(catalog);
    DecorateAllIdempotent(stored, catalog);
    assert cart.cart.items == afterFirst;
    assert first == second;
  }

  /** Adding an id the cart does not hold and then removing it gives back
      the same dictionary, key order included. */
  method AddThenRemoveRestores(cart: Cart, product: Product, quantity: int, updateQuantity: bool)
    requires cart.Valid() && product.id !in cart.cart.items
    modifies cart.cart, cart.session
    ensures cart.Valid()
    ensures cart.cart.order == old(cart.cart.order) && cart.cart.items == old(cart.cart.items)
    ensures cart.Len() == old(cart.Len()) && cart.TotalPrice() == old(cart.TotalPrice())
  {
    assert product.id !in cart.cart.order;
    cart.Add(product, quantity, updateQuantity);
    cart.Remove(product);
    WithoutAppended(old(cart.cart.order), product.id);
    assert cart.cart.items == old(cart.cart.items);
  }

  /** Two carts built on one session share its dictionary. */
  method SharedSession() {
    var session := new Session(null);
    var a := new Cart(session);
    a.Add(Product(5, 300), 2);
    var b := new Cart(session);
    assert b.cart == a.cart && b.Len() == 2;
  }

  /** `clear` drops the session's cart: a new cart on the session is empty,
      and a second `clear` raises `KeyError`. The cleared cart object keeps
      its now detached dictionary. */
  method ClearThenConstruct() {
    var session := new Session(null);
    var cart := new Cart(session);
    cart.Add(Product(1, 999), 2);
    var outcome := cart.Clear();
    assert outcome == Done && session.cart == null && session.modified;
    assert cart.Len() == 2;
    var again := new Cart(session);
    assert again.Len() == 0 && again.TotalPrice() == 0;
    outcome := cart.Clear();
    assert outcome == Done;
    outcome := cart.Clear();
    assert outcome == KeyError;
  }
}
