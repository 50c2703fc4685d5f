/** `services/productsService.js`: payload validation, the uniqueness-by-name rule
    and the mapping of repository answers to `not_found` / `invalid_data`. */
module ProductsService {
  import opened Values
  import opened ObjectIds
  import opened Validation
  import opened Repository

  const ProductExists := ServiceError(InvalidData, "Product already exists")
  const ProductNotFound := ServiceError(NotFound, "Product not found")
  const WrongIdFormat := ServiceError(InvalidData, "Wrong id format")

  /** The message of the driver's error object for an id it cannot parse. */
  const DriverIdMessage := "Argument passed in must be a single String of 12 bytes or a string of 24 hex characters"

  /** Some stored product carries exactly this name. */
  ghost predicate NameTaken(products: map<string, Product>, name: string) {
    exists id :: id in products && products[id].name == name
  }

  /** No two stored products share a name. */
  ghost predicate UniqueNames(products: map<string, Product>) {
    forall a, b :: a in products && b in products && a != b ==> products[a].name != products[b].name
  }

  function FirstNamed(products: map<string, Product>, order: seq<string>, name: string): (r: Option<ProductRecord>)
    requires forall k :: k in order ==> k in products
    ensures r.None? <==> forall i :: 0 <= i < |order| ==> products[order[i]].name != name
    ensures r.Some? ==> exists i :: 0 <= i < |order| && order[i] == r.value.id
                                    && (forall j :: 0 <= j < i ==> products[order[j]].name != name)
    ensures r.Some? ==> r.value.id in products && r.value == ToRecord(r.value.id, products[r.value.id])
                        && r.value.name == name
  {
    if order == [] then None
    else if products[order[0]].name == name then Some(ToRecord(order[0], products[order[0]]))
    else
      var r := FirstNamed(products, order[1..], name);
      FirstNamedShift(products, order, name, r);
      r
  }

  lemma FirstNamedShift(products: map<string, Product>, order: seq<string>, name: string, r: Option<ProductRecord>)
    requires |order| > 0 && forall k :: k in order ==> k in products
    requires products[order[0]].name != name
    requires r.Some? ==> exists i :: 0 <= i < |order[1..]| && order[1..][i] == r.value.id
                                     && (forall j :: 0 <= j < i ==> products[order[1..][j]].name != name)
    ensures r.Some? ==> exists i :: 0 <= i < |order| && order[i] == r.value.id
                                    && (forall j :: 0 <= j < i ==> products[order[j]].name != name)
  {
    if r.Some? {
      var i :| 0 <= i < |order[1..]| && order[1..][i] == r.value.id
               && (forall j :: 0 <= j < i ==> products[order[1..][j]].name != name);
      assert order[i + 1] == r.value.id;
      forall j | 0 <= j < i + 1 ensures products[order[j]].name != name {
        if j > 0 {
          assert order[j] == order[1..][j - 1];
        }
      }
    }
  }

  lemma NameTakenListed(products: map<string, Product>, order: seq<string>, name: string)
    requires Indexes(order, products)
    ensures NameTaken(products, name) ==> exists i :: 0 <= i < |order| && products[order[i]].name == name
  {
    if NameTaken(products, name) {
      var id :| id in products && products[id].name == name;
      assert id in order;
      var i :| 0 <= i < |order| && order[i] == id;
    }
  }

  /** `findOneByName`: the first product, in the collection's natural order, whose
      name is exactly `name`; `null` when there is none. */
  function FindOneByName(products: map<string, Product>, order: seq<string>, name: string): (r: Option<ProductRecord>)
    requires Indexes(order, products)
    ensures r.None? <==> !NameTaken(products, name)
    ensures r.Some? ==> r.value.id in products && r.value == ToRecord(r.value.id, products[r.value.id])
                        && r.value.name == name
    ensures r.Some? ==> exists i :: 0 <= i < |order| && order[i] == r.value.id
                                    && (forall j :: 0 <= j < i ==> products[order[j]].name != name)
  {
    var r := FirstNamed(products, order, name);
    NameTakenListed(products, order, name);
    r
  }

  /** `getAll`: every stored product, once each, in natural order (the `products` field of the answer). */
  function GetAll(products: map<string, Product>, order: seq<string>): (r: seq<ProductRecord>)
    requires Indexes(order, products)
    ensures |r| == |order|
    ensures forall i :: 0 <= i < |r| ==> r[i].id == order[i] && r[i] == ToRecord(order[i], products[order[i]])
    ensures forall id :: id in products <==> exists i :: 0 <= i < |r| && r[i].id == id
  {
    var r := seq(|order|, i requires 0 <= i < |order| => ToRecord(order[i], products[order[i]]));
    assert forall id :: id in products ==> exists i :: 0 <= i < |order| && order[i] == id;
    r
  }

  /** `getById`: `invalid_data` for an id the driver cannot parse, `not_found` for a
      well-formed id no product has, otherwise the stored product. */
  function GetById(products: map<string, Product>, id: string): (r: Response<ProductRecord>)
    ensures r == Err(WrongIdFormat) <==> !IsObjectIdText(id)
    ensures r == Err(ProductNotFound) <==> IsObjectIdText(id) && Canonicalize(id) !in products
    ensures r.Ok? <==> IsObjectIdText(id) && Canonicalize(id) in products
    ensures r.Ok? ==> r.value == ToRecord(Canonicalize(id), products[Canonicalize(id)])
    ensures !r.DriverError?
  {
    match Find(products, Parse(Text(id)))
    case NoDocument => Err(ProductNotFound)
    case BadId => Err(WrongIdFormat)
    case Found(p) => Ok(ToRecord(Parse(Text(id)).id, p))
  }

  /** `create`: validate the payload, refuse a name already stored, then insert. */
  method Create(store: Store, name: Field, quantity: Field, newId: string) returns (r: Response<ProductRecord>)
    requires store.Valid() && IsCanonical(newId) && newId !in store.products
    modifies store
    ensures store.Valid()
    ensures store.sales == old(store.sales) && store.saleOrder == old(store.saleOrder)
    ensures ProductPayloadError(name, quantity).Some? ==>
              && r == Err(ServiceError(InvalidData, ProductPayloadError(name, quantity).value))
              && store.products == old(store.products) && store.productOrder == old(store.productOrder)
    ensures ValidName(name) && ValidQuantity(quantity) && NameTaken(old(store.products), name.s) ==>
              && r == Err(ProductExists)
              && store.products == old(store.products) && store.productOrder == old(store.productOrder)
    ensures ValidName(name) && ValidQuantity(quantity) && !NameTaken(old(store.products), name.s) ==>
              && r == Ok(ProductRecord(newId, name.s, quantity.x))
              && store.products == old(store.products)[newId := Product(name.s, quantity.x)]
              && store.productOrder == old(store.productOrder) + [newId]
  {
    var error := ProductPayloadError(name, quantity);
    if error.Some? {
      return Err(ServiceError(InvalidData, error.value));
    }
    var productExists := FindOneByName(store.products, store.productOrder, name.s);
    if productExists.Some? {
      return Err(ProductExists);
    }
    var response := store.InsertProduct(newId, name.s, quantity.x);
    return Ok(response);
  }

  /** `updateById`: validate the payload before any lookup; `not_found` for an
      absent product; otherwise replace name and quantity under the same id. An id
      the driver cannot parse passes the lookup (its answer is a truthy error
      object) and the driver's error object of the update is returned as it is. */
  method UpdateById(store: Store, id: string, name: Field, quantity: Field) returns (r: Response<ProductRecord>)
    requires store.Valid()
    modifies store
    ensures store.Valid()
    ensures store.sales == old(store.sales) && store.saleOrder == old(store.saleOrder)
    ensures store.productOrder == old(store.productOrder)
    ensures ProductPayloadError(name, quantity).Some? ==>
              r == Err(ServiceError(InvalidData, ProductPayloadError(name, quantity).value))
              && store.products == old(store.products)
    ensures ValidName(name) && ValidQuantity(quantity) && !IsObjectIdText(id) ==>
              r == DriverError(DriverIdMessage) && store.products == old(store.products)
    ensures ValidName(name) && ValidQuantity(quantity) && IsObjectIdText(id) && Canonicalize(id) !in old(store.products) ==>
              r == Err(ProductNotFound) && store.products == old(store.products)
    ensures ValidName(name) && ValidQuantity(quantity) && IsObjectIdText(id) && Canonicalize(id) in old(store.products) ==>
              && r == Ok(ProductRecord(Canonicalize(id), name.s, quantity.x))
              && store.products == old(store.products)[Canonicalize(id) := Product(name.s, quantity.x)]
  {
    var error := ProductPayloadError(name, quantity);
    if error.Some? {
      return Err(ServiceError(InvalidData, error.value));
    }
    var productExists := Find(store.products, Parse(Text(id)));
    match productExists
    case NoDocument =>
      return Err(ProductNotFound);
    case BadId =>
      return DriverError(DriverIdMessage);
    case Found(_) =>
      var response := store.ReplaceProduct(Parse(Text(id)).id, name.s, quantity.x);
      return Ok(response);
  }

  /** `deleteById`: `not_found` for an absent product, `invalid_data` for an id the
      driver cannot parse; otherwise remove the product and return it as it was. */
  method DeleteById(store: Store, id: string) returns (r: Response<ProductRecord>)
    requires store.Valid()
    modifies store
    ensures store.Valid()
    ensures store.sales == old(store.sales) && store.saleOrder == old(store.saleOrder)
    ensures !IsObjectIdText(id) ==>
              r == Err(WrongIdFormat) && store.products == old(store.products)
              && store.productOrder == old(store.productOrder)
    ensures IsObjectIdText(id) && Canonicalize(id) !in old(store.products) ==>
              r == Err(ProductNotFound) && store.products == old(store.products)
              && store.productOrder == old(store.productOrder)
    ensures IsObjectIdText(id) && Canonicalize(id) in old(store.products) ==>
              && r == Ok(ToRecord(Canonicalize(id), old(store.products)[Canonicalize(id)]))
              && store.products == old(store.products) - {Canonicalize(id)}
              && store.productOrder == Without(old(store.productOrder), Canonicalize(id))
  {
    var productExists := Find(store.products, Parse(Text(id)));
    match productExists
    case NoDocument =>
      return Err(ProductNotFound);
    case BadId =>
      return Err(WrongIdFormat);
    case Found(p) =>
      store.RemoveProduct(Parse(Text(id)).id);
      return Ok(ToRecord(Parse(Text(id)).id, p));
  }

  /** Creating a product and reading it back by its id gives the created record. */
  lemma CreateThenGetById(products: map<string, Product>, id: string, name: string, quantity: real)
    requires IsCanonical(id)
    ensures GetById(products[id := Product(name, quantity)], id) == Ok(ProductRecord(id, name, quantity))
  {
    ParseRoundTrip(id);
  }

  /** Since `create` refuses a taken name, it keeps names unique. */
  lemma CreateKeepsNamesUnique(products: map<string, Product>, id: string, name: string, quantity: real)
    requires UniqueNames(products) && !NameTaken(products, name) && id !in products
    ensures UniqueNames(products[id := Product(name, quantity)])
  {
  }

  /** `updateById` performs no name check: giving product `b` the name of another
      stored product `a`, the state its success case produces, always breaks
      uniqueness. */
  lemma UpdateCanDuplicateNames(products: map<string, Product>, a: string, b: string, quantity: real)
    requires a in products && b in products && a != b
    ensures !UniqueNames(products[b := Product(products[a].name, quantity)])
  {
    var after := products[b := Product(products[a].name, quantity)];
    assert a in after && b in after && after[a].name == after[b].name;
  }
}
