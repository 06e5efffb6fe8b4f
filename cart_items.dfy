/** The values a session cart stores: products, line items, the key order of
    the dictionary that holds them, and the decoration iteration adds. */
module CartItems {

  /** A product's primary key. The cart keys its dictionary by `str(id)`;
      `str` is injective on integers, so the id itself stands for the key. */
  type ProductId = int

  /** An exact decimal amount, counted in the smallest unit of the price
      column (cents for a column with two decimal places). */
  type Money = int

  datatype Option<T> = None | Some(value: T)

  /** A catalog row as the cart sees it; display fields are not modelled. */
  datatype Product = Product(id: ProductId, price: Money)

  /** The inner dictionary of one cart entry: `quantity` and `price`, plus the
      `product` and `total_price` fields that iteration attaches to it. */
  datatype LineItem = LineItem(
    quantity: int,
    price: Money,
    product: Option<Product>,
    totalPrice: Option<Money>)

  /** The entry `add` creates for an id the cart does not hold yet. */
  function NewLine(price: Money): LineItem {
    LineItem(0, price, None, None)
  }

  /** What `__len__` adds up per entry. */
  function Quantity(line: LineItem): int {
    line.quantity
  }

  /** What `get_total_price` adds up per entry: price times quantity. */
  function Subtotal(line: LineItem): Money {
    line.price * line.quantity
  }

  predicate Distinct(s: seq<ProductId>) {
    forall i, j :: 0 <= i < j < |s| ==> s[i] != s[j]
  }

  /** A Python dictionary: each key once, in insertion order, and exactly the
      keys of the mapping. */
  ghost predicate IsDictionary(order: seq<ProductId>, items: map<ProductId, LineItem>) {
    && Distinct(order)
    && (forall i :: 0 <= i < |order| ==> order[i] in items)
    && (forall k :: k in items ==> k in order)
  }

  /** The key order of a dictionary after `del d[k]`: `k` leaves, every other
      key keeps its place. */
  function Without(order: seq<ProductId>, k: ProductId): (r: seq<ProductId>)
    ensures forall x :: x in r <==> x in order && x != k
    ensures Distinct(order) ==> Distinct(r)
    ensures k !in order ==> r == order
    ensures |r| <= |order|
  {
    if order == [] then []
    else if order[0] == k then Without(order[1..], k)
    else
      var rest := Without(order[1..], k);
      assert Distinct(order) ==> order[0] !in rest;
      [order[0]] + rest
  }

  /** Deleting a key splices it out: the keys before it and the keys after
      it stay where they were. */
  lemma {:induction false} WithoutSplices(order: seq<ProductId>, k: ProductId, i: nat)
    requires Distinct(order) && i < |order| && order[i] == k
    ensures Without(order, k) == order[..i] + order[i + 1..]
  {
    var rest := order[1..];
    DistinctTail(order);
    if i == 0 {
      assert k !in rest by {
        forall j | 0 <= j < |rest| ensures rest[j] != k {
          assert rest[j] == order[j + 1];
        }
      }
      assert order[..0] + order[1..] == rest;
    } else {
      WithoutSplices(rest, k, i - 1);
      assert order[..i] + order[i + 1..] == [order[0]] + (rest[..i - 1] + rest[i..]);
    }
  }

  lemma DistinctTail(order: seq<ProductId>)
    requires Distinct(order) && order != []
    ensures Distinct(order[1..])
  {
    var rest := order[1..];
    forall a, b | 0 <= a < b < |rest| ensures rest[a] != rest[b] {
      assert rest[a] == order[a + 1] && rest[b] == order[b + 1];
    }
  }

  lemma {:induction false} WithoutAppended(order: seq<ProductId>, k: ProductId)
    requires k !in order
    ensures Without(order + [k], k) == order
  {
    if order == [] {
      assert order + [k] == [k];
    } else {
      assert (order + [k])[1..] == order[1..] + [k];
      WithoutAppended(order[1..], k);
    }
  }

  /** Deleting a key keeps a dictionary a dictionary. */
  lemma DictionaryRemove(order: seq<ProductId>, items: map<ProductId, LineItem>, k: ProductId)
    requires IsDictionary(order, items)
    ensures IsDictionary(Without(order, k), items - {k})
  {
    var r := Without(order, k);
    forall i | 0 <= i < |r| ensures r[i] in items - {k} {
      assert r[i] in r;
      var j :| 0 <= j < |order| && order[j] == r[i];
    }
  }

  /** The product table: every row is stored under its own primary key. */
  ghost predicate Keyed(catalog: map<ProductId, Product>) {
    forall k :: k in catalog ==> catalog[k].id == k
  }

  /** `Product.objects.filter(id__in=ids)`: the rows whose id is among `ids`. */
  function Matching(catalog: map<ProductId, Product>, ids: set<ProductId>): (found: set<Product>)
    requires Keyed(catalog)
    ensures forall p :: p in found <==> p.id in ids && p.id in catalog && catalog[p.id] == p
  {
    set k | k in catalog && k in ids :: catalog[k]
  }

  /** The first loop of iteration: the product found in the catalog is
      attached; an entry with no match keeps whatever it had. */
  function Attach(line: LineItem, id: ProductId, catalog: map<ProductId, Product>): LineItem {
    if id in catalog then line.(product := Some(catalog[id])) else line
  }

  /** The second loop of iteration: `Decimal(price)` keeps the value and
      `total_price` becomes price times quantity. */
  function Priced(line: LineItem): LineItem {
    line.(totalPrice := Some(Subtotal(line)))
  }

  function Decorate(line: LineItem, id: ProductId, catalog: map<ProductId, Product>): LineItem {
    Priced(Attach(line, id, catalog))
  }

  /** The live entries after one full iteration. */
  function DecorateAll(items: map<ProductId, LineItem>, catalog: map<ProductId, Product>)
    : (r: map<ProductId, LineItem>)
    ensures r.Keys == items.Keys
    ensures forall k :: k in r ==>
              && r[k].quantity == items[k].quantity
              && r[k].price == items[k].price
              && r[k].totalPrice == Some(Subtotal(items[k]))
    ensures forall k :: k in r ==>
              r[k].product == if k in catalog then Some(catalog[k]) else items[k].product
  {
    map k | k in items :: Decorate(items[k], k, catalog)
  }

  /** A second iteration without a mutation in between changes nothing more,
      so it yields the same records. */
  lemma DecorateAllIdempotent(items: map<ProductId, LineItem>, catalog: map<ProductId, Product>)
    ensures DecorateAll(DecorateAll(items, catalog), catalog) == DecorateAll(items, catalog)
  {
  }
}
