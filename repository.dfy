/** The document store behind `productsModel` and `salesModel`, as an in-memory
    object: the `products` collection (`{ _id, name, quantity }`) and the `sales`
    collection (`{ _id, itensSold }`), each a map from identifier to document plus
    the order in which the documents were inserted (the collection's natural order). */
module Repository {
  import opened Values
  import opened ObjectIds

  datatype Product = Product(name: string, quantity: real)

  /** A product document as the repository returns it, `{ _id, name, quantity }`. */
  datatype ProductRecord = ProductRecord(id: string, name: string, quantity: real)

  /** A sale document, `{ _id, itensSold }`: the items exactly as the request gave them. */
  datatype SaleRecord = SaleRecord(id: string, itemsSold: seq<RawItem>)

  /** What a repository `getById` resolves to: the driver's error object for an id
      it cannot parse, `null` when no document has the id, or the document. */
  datatype Lookup<T> = BadId | NoDocument | Found(value: T)

  function Find<T>(m: map<string, T>, p: IdParse): (r: Lookup<T>)
    ensures r.BadId? <==> p.Malformed?
    ensures r.Found? <==> p.Parsed? && p.id in m
    ensures r.Found? ==> r.value == m[p.id]
  {
    match p
    case Malformed => BadId
    case Generated => NoDocument
    case Parsed(id) => if id in m then Found(m[id]) else NoDocument
  }

  function ToRecord(id: string, p: Product): ProductRecord {
    ProductRecord(id, p.name, p.quantity)
  }

  /** `updateProductQuantityById(id, delta)`: a `$inc` on the document's quantity;
      when no document has the id nothing changes. */
  function Increment(products: map<string, Product>, p: IdParse, delta: real): (r: map<string, Product>)
    ensures r.Keys == products.Keys
    ensures forall id :: id in r ==> r[id].name == products[id].name
    ensures forall id :: id in r ==> r[id].quantity == products[id].quantity + (if p == Parsed(id) then delta else 0.0)
  {
    if p.Parsed? && p.id in products then
      products[p.id := Product(products[p.id].name, products[p.id].quantity + delta)]
    else products
  }

  predicate NoDuplicates<T(==)>(s: seq<T>) {
    forall i, j :: 0 <= i < j < |s| ==> s[i] != s[j]
  }

  /** `order` lists every key of `m`, each once. */
  ghost predicate Indexes<T>(order: seq<string>, m: map<string, T>) {
    NoDuplicates(order) && forall k :: k in order <==> k in m
  }

  function Without(order: seq<string>, id: string): (r: seq<string>)
    ensures forall k :: k in r <==> k in order && k != id
    ensures NoDuplicates(order) ==> NoDuplicates(r)
  {
    if order == [] then []
    else if order[0] == id then Without(order[1..], id)
    else
      var rest := Without(order[1..], id);
      PrependKeepsDistinct(order, rest);
      [order[0]] + rest
  }

  lemma PrependKeepsDistinct(order: seq<string>, rest: seq<string>)
    requires |order| > 0
    requires forall k :: k in rest ==> k in order[1..]
    requires NoDuplicates(order[1..]) ==> NoDuplicates(rest)
    ensures NoDuplicates(order) ==> NoDuplicates([order[0]] + rest)
  {
    if NoDuplicates(order) {
      var tail := order[1..];
      assert NoDuplicates(tail) by {
        forall i, j | 0 <= i < j < |tail| ensures tail[i] != tail[j] {
          assert tail[i] == order[i + 1] && tail[j] == order[j + 1];
        }
      }
      var o := [order[0]] + rest;
      forall i, j | 0 <= i < j < |o| ensures o[i] != o[j] {
        if i == 0 {
          assert o[j] == rest[j - 1] && rest[j - 1] in rest;
          var t :| 0 <= t < |tail| && tail[t] == o[j];
          assert order[t + 1] == o[j];
        } else {
          assert o[i] == rest[i - 1] && o[j] == rest[j - 1];
        }
      }
    }
  }

  lemma IndexesInsert<T>(order: seq<string>, m: map<string, T>, id: string, v: T)
    requires Indexes(order, m) && id !in m
    ensures Indexes(order + [id], m[id := v])
  {
    var o := order + [id];
    forall i, j | 0 <= i < j < |o| ensures o[i] != o[j] {
      if j == |order| {
        assert o[i] == order[i] && order[i] in order;
      }
    }
  }

  class Store {
    var products: map<string, Product>
    var productOrder: seq<string>
    var sales: map<string, seq<RawItem>>
    var saleOrder: seq<string>

    ghost predicate Valid()
      reads this
    {
      && Indexes(productOrder, products)
      && Indexes(saleOrder, sales)
      && (forall id :: id in products ==> IsCanonical(id))
      && (forall id :: id in sales ==> IsCanonical(id))
    }

    constructor ()
      ensures Valid()
      ensures products == map[] && productOrder == []
      ensures sales == map[] && saleOrder == []
    {
      products, productOrder := map[], [];
      sales, saleOrder := map[], [];
    }

    /** `productsModel.create`: insert a product under the id the store generates. */
    method InsertProduct(id: string, name: string, quantity: real) returns (r: ProductRecord)
      requires Valid() && IsCanonical(id) && id !in products
      modifies this
      ensures Valid()
      ensures products == old(products)[id := Product(name, quantity)]
      ensures productOrder == old(productOrder) + [id]
      ensures sales == old(sales) && saleOrder == old(saleOrder)
      ensures r == ProductRecord(id, name, quantity)
    {
      IndexesInsert(productOrder, products, id, Product(name, quantity));
      products := products[id := Product(name, quantity)];
      productOrder := productOrder + [id];
      r := ProductRecord(id, name, quantity);
    }

    /** `productsModel.updateById` on a stored product: replace its name and quantity. */
    method ReplaceProduct(id: string, name: string, quantity: real) returns (r: ProductRecord)
      requires Valid() && id in products
      modifies this
      ensures Valid()
      ensures products == old(products)[id := Product(name, quantity)]
      ensures productOrder == old(productOrder)
      ensures sales == old(sales) && saleOrder == old(saleOrder)
      ensures r == ProductRecord(id, name, quantity)
    {
      products := products[id := Product(name, quantity)];
      r := ProductRecord(id, name, quantity);
    }

    /** `productsModel.updateProductQuantityById`: an atomic relative increment. */
    method IncrementQuantity(p: IdParse, delta: real)
      requires Valid()
      modifies this
      ensures Valid()
      ensures products == Increment(old(products), p, delta)
      ensures productOrder == old(productOrder)
      ensures sales == old(sales) && saleOrder == old(saleOrder)
    {
      products := Increment(products, p, delta);
    }

    /** `productsModel.deleteById` on a stored product. */
    method RemoveProduct(id: string)
      requires Valid() && id in products
      modifies this
      ensures Valid()
      ensures products == old(products) - {id}
      ensures productOrder == Without(old(productOrder), id)
      ensures sales == old(sales) && saleOrder == old(saleOrder)
    {
      products := products - {id};
      productOrder := Without(productOrder, id);
    }

    /** `salesModel.create`: insert a sale under the id the store generates. */
    method InsertSale(id: string, items: seq<RawItem>) returns (r: SaleRecord)
      requires Valid() && IsCanonical(id) && id !in sales
      modifies this
      ensures Valid()
      ensures sales == old(sales)[id := items]
      ensures saleOrder == old(saleOrder) + [id]
      ensures products == old(products) && productOrder == old(productOrder)
      ensures r == SaleRecord(id, items)
    {
      IndexesInsert(saleOrder, sales, id, items);
      sales := sales[id := items];
      saleOrder := saleOrder + [id];
      r := SaleRecord(id, items);
    }

    /** `salesModel.updateById` on a stored sale: replace its item list. */
    method ReplaceSale(id: string, items: seq<RawItem>) returns (r: SaleRecord)
      requires Valid() && id in sales
      modifies this
      ensures Valid()
      ensures sales == old(sales)[id := items]
      ensures saleOrder == old(saleOrder)
      ensures products == old(products) && productOrder == old(productOrder)
      ensures r == SaleRecord(id, items)
    {
      sales := sales[id := items];
      r := SaleRecord(id, items);
    }

    /** `salesModel.deleteById` on a stored sale. */
    method RemoveSale(id: string)
      requires Valid() && id in sales
      modifies this
      ensures Valid()
      ensures sales == old(sales) - {id}
      ensures saleOrder == Without(old(saleOrder), id)
      ensures products == old(products) && productOrder == old(productOrder)
    {
      sales := sales - {id};
      saleOrder := Without(saleOrder, id);
    }
  }
}
