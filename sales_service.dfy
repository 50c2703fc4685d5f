/** `services/salesService.js`: the sale orchestrator. Its per-item fan-outs
    (`Promise.all` over repository calls) are modelled as sequential loops; only
    the aggregate error count of each fan-out reaches the caller, and the stock
    increments commute, so the order in which they complete does not matter. */
module SalesService {
  import opened Values
  import opened ObjectIds
  import opened Validation
  import opened Repository

  const WrongProducts := ServiceError(InvalidData, "Wrong product ID or invalid quantity")
  const NotPermitted := ServiceError(StockProblem, "Such amount is not permitted to sell")
  const SaleNotFound := ServiceError(NotFound, "Sale not found")
  const WrongSaleId := ServiceError(InvalidData, "Wrong sale ID format")

  /** Result of one validation fan-out: `true`, or `{ error: "<count> problems" }`. */
  datatype Check = Passed | Problems(count: nat)

  /** Result of `updateQuantityProducts`: `true`, or `{ error: message }`. */
  datatype UpdateResult = Done | Failed(message: string)

  function IdOf(item: RawItem): IdParse {
    Parse(item.productId)
  }

  /** The item's `productId` names a stored product. */
  predicate Resolves(products: map<string, Product>, item: RawItem) {
    Find(products, IdOf(item)).Found?
  }

  /** `inventoryProduct.quantity < item.quantity`, with JavaScript's comparison:
      `null` compares as 0 and `undefined` compares false. */
  predicate Exceeds(stock: real, requested: Field) {
    match requested
    case Number(x) => stock < x
    case Null => stock < 0.0
    case _ => false
  }

  /** The item names a stored product whose stock covers the requested quantity. */
  predicate InStock(products: map<string, Product>, item: RawItem) {
    Resolves(products, item) && !Exceeds(products[IdOf(item).id].quantity, item.quantity)
  }

  predicate AnyMalformed(items: seq<RawItem>) {
    exists i :: 0 <= i < |items| && IdOf(items[i]).Malformed?
  }

  // ---------------------------------------------------------------------------
  // availableProductsValidation

  /** Number of items whose lookup comes back `null`. */
  function MissingCount(products: map<string, Product>, items: seq<RawItem>): nat {
    if items == [] then 0
    else
      var n := |items| - 1;
      MissingCount(products, items[..n]) + if Resolves(products, items[n]) then 0 else 1
  }

  /** What `availableProductsValidation` answers: a body that is missing or not an
      array makes `forEach` throw, and so does a malformed id, each caught and counted
      once; otherwise every lookup that came back `null` is one problem. */
  function ReferentialCheck(products: map<string, Product>, payload: SalePayload): Check {
    match payload
    case Items(items) =>
      var n := if AnyMalformed(items) then 1 else MissingCount(products, items);
      if n == 0 then Passed else Problems(n)
    case _ => Problems(1)
  }

  lemma {:induction false} MissingCountZero(products: map<string, Product>, items: seq<RawItem>)
    ensures MissingCount(products, items) == 0 <==> forall i :: 0 <= i < |items| ==> Resolves(products, items[i])
  {
    if items != [] {
      var n := |items| - 1;
      MissingCountZero(products, items[..n]);
      assert forall i :: 0 <= i < n ==> items[..n][i] == items[i];
    }
  }

  /** The referential check passes exactly when the body is an array and every
      item's `productId` names a stored product. */
  lemma ReferentialCheckMeaning(products: map<string, Product>, payload: SalePayload)
    ensures ReferentialCheck(products, payload) == Passed <==>
              payload.Items? && forall i :: 0 <= i < |payload.items| ==> Resolves(products, payload.items[i])
  {
    if payload.Items? {
      MissingCountZero(products, payload.items);
    }
  }

  /** The first `forEach` of both checks: `ObjectId(productId)` for every item and
      its lookup; a malformed id throws before any lookup is awaited. */
  method FetchProducts(store: Store, items: seq<RawItem>) returns (lookups: seq<Lookup<Product>>, threw: bool)
    ensures threw <==> AnyMalformed(items)
    ensures !threw ==> |lookups| == |items|
    ensures !threw ==> forall k :: 0 <= k < |items| ==> lookups[k] == Find(store.products, IdOf(items[k]))
  {
    lookups, threw := [], false;
    var i := 0;
    while i < |items| && !threw
      invariant 0 <= i <= |items| && |lookups| == i
      invariant forall k :: 0 <= k < i ==> lookups[k] == Find(store.products, IdOf(items[k]))
      invariant forall k :: 0 <= k < i ==> !IdOf(items[k]).Malformed?
      invariant threw ==> i < |items| && IdOf(items[i]).Malformed?
      decreases |items| - i, if threw then 0 else 1
    {
      var id := IdOf(items[i]);
      if id.Malformed? {
        threw := true;
      } else {
        lookups := lookups + [Find(store.products, id)];
        i := i + 1;
      }
    }
  }

  /** `availableProductsValidation`: count the lookups that come back `null`. */
  method AvailableProductsValidation(store: Store, payload: SalePayload) returns (c: Check)
    ensures c == ReferentialCheck(store.products, payload)
  {
    if !payload.Items? {
      return Problems(1);
    }
    var items := payload.items;
    var nErrors := 0;
    var idsResults, threw := FetchProducts(store, items);
    if threw {
      nErrors := nErrors + 1;
    } else {
      var j := 0;
      while j < |idsResults|
        invariant 0 <= j <= |idsResults|
        invariant nErrors == MissingCount(store.products, items[..j])
      {
        assert items[..j + 1][..j] == items[..j];
        if idsResults[j].NoDocument? {
          nErrors := nErrors + 1;
        }
        j := j + 1;
      }
      assert items[..|items|] == items;
    }
    c := if nErrors > 0 then Problems(nErrors) else Passed;
  }

  // ---------------------------------------------------------------------------
  // availableInStockValidation

  /** The second `forEach` of the stock check: one problem per item whose stock is
      below the request, until the first lookup that came back `null`, where
      reading `null.quantity` throws and the catch adds one more. */
  function StockScan(products: map<string, Product>, items: seq<RawItem>): nat {
    if items == [] then 0
    else match Find(products, IdOf(items[0]))
      case Found(p) => (if Exceeds(p.quantity, items[0].quantity) then 1 else 0) + StockScan(products, items[1..])
      case _ => 1
  }

  /** What `availableInStockValidation` answers. */
  function StockCheck(products: map<string, Product>, payload: SalePayload): Check {
    match payload
    case Items(items) =>
      var n := if AnyMalformed(items) then 1 else StockScan(products, items);
      if n == 0 then Passed else Problems(n)
    case _ => Problems(1)
  }

  lemma {:induction false} StockScanZero(products: map<string, Product>, items: seq<RawItem>)
    ensures StockScan(products, items) == 0 <==> forall i :: 0 <= i < |items| ==> InStock(products, items[i])
  {
    if items != [] {
      StockScanZero(products, items[1..]);
      assert forall i :: 1 <= i < |items| ==> items[i] == items[1..][i - 1];
    }
  }

  /** The stock check passes exactly when every item names a stored product whose
      stock is at least the requested quantity (asking for all of it passes). */
  lemma StockCheckMeaning(products: map<string, Product>, payload: SalePayload)
    ensures StockCheck(products, payload) == Passed <==>
              payload.Items? && forall i :: 0 <= i < |payload.items| ==> InStock(products, payload.items[i])
  {
    if payload.Items? {
      StockScanZero(products, payload.items);
    }
  }

  /** `availableInStockValidation`: compare each stored quantity with the request. */
  method AvailableInStockValidation(store: Store, payload: SalePayload) returns (c: Check)
    ensures c == StockCheck(store.products, payload)
  {
    if !payload.Items? {
      return Problems(1);
    }
    var items := payload.items;
    var nErrors := 0;
    var inventoryData, threw := FetchProducts(store, items);
    if !threw {
      var j := 0;
      assert items[0..] == items;
      while j < |inventoryData| && !threw
        invariant 0 <= j <= |inventoryData|
        invariant nErrors + (if threw then 1 else StockScan(store.products, items[j..])) == StockScan(store.products, items)
        decreases |inventoryData| - j, if threw then 0 else 1
      {
        assert items[j..][1..] == items[j + 1..];
        match inventoryData[j]
        case Found(p) =>
          if Exceeds(p.quantity, items[j].quantity) {
            nErrors := nErrors + 1;
          }
          j := j + 1;
        case _ =>
          threw := true;
      }
    }
    if threw {
      nErrors := nErrors + 1;
    }
    c := if nErrors > 0 then Problems(nErrors) else Passed;
  }

  // ---------------------------------------------------------------------------
  // updateQuantityProducts

  /** The signed increment for one item: `+quantity` for `'increase'`, `-quantity`
      for any other operation; none when the quantity is not a number (the store
      refuses such a `$inc` and the repository returns its error as a value). */
  function Delta(item: RawItem, operation: string): Option<real> {
    match item.quantity
    case Number(x) => Some(if operation == "increase" then x else -x)
    case _ => None
  }

  /** How much item `index` adds to product `id` when its update is not rejected. */
  function Contribution(item: RawItem, index: nat, id: string, operation: string, failed: set<nat>): real {
    if index in failed || IdOf(item) != Parsed(id) then 0.0
    else match Delta(item, operation)
      case Some(d) => d
      case None => 0.0
  }

  /** Total change `updateQuantityProducts` makes to product `id`. */
  function DeltaSum(items: seq<RawItem>, id: string, operation: string, failed: set<nat>): real {
    if items == [] then 0.0
    else
      var n := |items| - 1;
      DeltaSum(items[..n], id, operation, failed) + Contribution(items[n], n, id, operation, failed)
  }

  /** The products after one increment per item (items in `failed` are rejected
      and change nothing): every product keeps its name and gains its `DeltaSum`. */
  function ApplyDeltas(products: map<string, Product>, items: seq<RawItem>, operation: string, failed: set<nat>)
    : (r: map<string, Product>)
    ensures r.Keys == products.Keys
    ensures forall id :: id in r ==>
              r[id] == Product(products[id].name, products[id].quantity + DeltaSum(items, id, operation, failed))
  {
    if items == [] then products
    else
      var n := |items| - 1;
      var before := ApplyDeltas(products, items[..n], operation, failed);
      if n in failed then before
      else match Delta(items[n], operation)
        case Some(d) => Increment(before, IdOf(items[n]), d)
        case None => before
  }

  /** Extending the list of applied items by one more. */
  lemma ApplyDeltasStep(products: map<string, Product>, items: seq<RawItem>, i: nat, operation: string, failed: set<nat>)
    requires i < |items|
    ensures ApplyDeltas(products, items[..i + 1], operation, failed) ==
              var before := ApplyDeltas(products, items[..i], operation, failed);
              if i in failed then before
              else match Delta(items[i], operation)
                case Some(d) => Increment(before, IdOf(items[i]), d)
                case None => before
  {
    assert items[..i + 1][..i] == items[..i];
    assert items[..i + 1][i] == items[i];
  }

  /** `updateQuantityProducts`: one relative update per item; `true` unless one of
      the updates is rejected (`failed` holds the indices whose promise rejects,
      with message `reason`), in which case the others still take effect. */
  method UpdateQuantityProducts(store: Store, items: seq<RawItem>, operation: string, failed: set<nat>, reason: string)
    returns (r: UpdateResult)
    requires store.Valid()
    modifies store
    ensures store.Valid()
    ensures store.products == ApplyDeltas(old(store.products), items, operation, failed)
    ensures store.productOrder == old(store.productOrder)
    ensures store.sales == old(store.sales) && store.saleOrder == old(store.saleOrder)
    ensures r == if exists k :: k in failed && k < |items| then Failed(reason) else Done
  {
    ghost var initial := store.products;
    var rejected := false;
    var i := 0;
    while i < |items|
      invariant 0 <= i <= |items|
      invariant store.Valid()
      invariant store.products == ApplyDeltas(initial, items[..i], operation, failed)
      invariant store.productOrder == old(store.productOrder)
      invariant store.sales == old(store.sales) && store.saleOrder == old(store.saleOrder)
      invariant rejected <==> exists k :: k in failed && k < i
    {
      ApplyDeltasStep(initial, items, i, operation, failed);
      ghost var next := ApplyDeltas(initial, items[..i + 1], operation, failed);
      if i in failed {
        rejected := true;
        assert i in failed && i < i + 1;
        assert store.products == next;
      } else {
        match Delta(items[i], operation)
        case Some(d) =>
          store.IncrementQuantity(IdOf(items[i]), d);
          assert store.products == next;
        case None =>
          assert store.products == next;
      }
      i := i + 1;
    }
    assert items[..|items|] == items;
    r := if rejected then Failed(reason) else Done;
  }

  lemma {:induction false} DeltaSumOpposite(items: seq<RawItem>, id: string, failed: set<nat>)
    ensures DeltaSum(items, id, "decrease", failed) == -DeltaSum(items, id, "increase", failed)
  {
    if items != [] {
      DeltaSumOpposite(items[..|items| - 1], id, failed);
    }
  }

  /** Decrementing a sale's items and then re-crediting them restores every
      product exactly: `create` followed by `deleteById` leaves the stock as it was. */
  lemma SaleStockRoundTrip(products: map<string, Product>, items: seq<RawItem>)
    ensures ApplyDeltas(ApplyDeltas(products, items, "decrease", {}), items, "increase", {}) == products
  {
    var after := ApplyDeltas(ApplyDeltas(products, items, "decrease", {}), items, "increase", {});
    forall id | id in products ensures after[id] == products[id] {
      DeltaSumOpposite(items, id, {});
    }
  }

  /** No two items of the sale name the same product. */
  predicate DistinctProducts(items: seq<RawItem>) {
    forall i, j :: 0 <= i < j < |items| ==> IdOf(items[i]) != IdOf(items[j])
  }

  lemma {:induction false} DeltaSumUnmentioned(items: seq<RawItem>, id: string, operation: string, failed: set<nat>)
    requires forall k :: 0 <= k < |items| ==> IdOf(items[k]) != Parsed(id)
    ensures DeltaSum(items, id, operation, failed) == 0.0
  {
    if items != [] {
      DeltaSumUnmentioned(items[..|items| - 1], id, operation, failed);
    }
  }

  lemma {:induction false} DecreaseWithinStock(stock: real, items: seq<RawItem>, id: string)
    requires stock >= 0.0 && DistinctProducts(items)
    requires forall k :: 0 <= k < |items| && IdOf(items[k]) == Parsed(id) ==> !Exceeds(stock, items[k].quantity)
    ensures stock + DeltaSum(items, id, "decrease", {}) >= 0.0
  {
    if items != [] {
      var n := |items| - 1;
      var front := items[..n];
      assert forall k :: 0 <= k < n ==> front[k] == items[k];
      if IdOf(items[n]) == Parsed(id) {
        DeltaSumUnmentioned(front, id, "decrease", {});
      } else {
        DecreaseWithinStock(stock, front, id);
      }
    }
  }

  // ---------------------------------------------------------------------------
  // create

  /** Both the schema and the referential check accept the body. */
  predicate WellFormedSale(products: map<string, Product>, payload: SalePayload) {
    payload.Items? && forall i :: 0 <= i < |payload.items| ==>
      ValidItem(payload.items[i]) && Resolves(products, payload.items[i])
  }

  /** The decision of `create` from its three checks, which all run: the schema or
      the referential check failing gives `invalid_data`, whatever the stock check
      says; only then does a failed stock check give `stock_problem`. */
  function CreateVerdict(products: map<string, Product>, payload: SalePayload): Option<ServiceError> {
    var quantity := InputProductsQuantityValidation(payload);
    var available := ReferentialCheck(products, payload);
    var availableInStock := StockCheck(products, payload);
    if quantity.Some? || available.Problems? then Some(WrongProducts)
    else if availableInStock.Problems? then Some(NotPermitted)
    else None
  }

  lemma ShapeAndReferenceMeaning(products: map<string, Product>, payload: SalePayload)
    ensures (InputProductsQuantityValidation(payload).None? && ReferentialCheck(products, payload) == Passed)
              <==> WellFormedSale(products, payload)
  {
    ReferentialCheckMeaning(products, payload);
  }

  /** The error precedence of `create`, in terms of the items and the stock. */
  lemma CreateVerdictMeaning(products: map<string, Product>, payload: SalePayload)
    ensures CreateVerdict(products, payload) == Some(WrongProducts) <==> !WellFormedSale(products, payload)
    ensures CreateVerdict(products, payload) == Some(NotPermitted) <==>
              WellFormedSale(products, payload)
              && exists i :: 0 <= i < |payload.items| && !InStock(products, payload.items[i])
    ensures CreateVerdict(products, payload) == None <==>
              WellFormedSale(products, payload)
              && forall i :: 0 <= i < |payload.items| ==> InStock(products, payload.items[i])
  {
    ShapeAndReferenceMeaning(products, payload);
    StockCheckMeaning(products, payload);
  }

  /** After a sale `create` accepts, no product's stock is negative, provided no
      stock was negative before and the sale names each product at most once. */
  lemma AcceptedSaleKeepsStockNonNegative(products: map<string, Product>, payload: SalePayload)
    requires forall id :: id in products ==> products[id].quantity >= 0.0
    requires CreateVerdict(products, payload) == None
    requires payload.Items? && DistinctProducts(payload.items)
    ensures forall id :: id in products ==> ApplyDeltas(products, payload.items, "decrease", {})[id].quantity >= 0.0
  {
    CreateVerdictMeaning(products, payload);
    forall id | id in products
      ensures products[id].quantity + DeltaSum(payload.items, id, "decrease", {}) >= 0.0
    {
      DecreaseWithinStock(products[id].quantity, payload.items, id);
    }
  }

  /** With a product named twice, each item is checked against the stock as it was
      before the sale, so the sale is accepted and the stock goes below zero. */
  lemma RepeatedProductOversells(id: string)
    requires IsCanonical(id)
    ensures var products := map[id := Product("Produto do Batista", 150.0)];
            var items := [RawItem(Text(id), Number(100.0), []), RawItem(Text(id), Number(100.0), [])];
            && CreateVerdict(products, Items(items)) == None
            && ApplyDeltas(products, items, "decrease", {})[id].quantity == -50.0
  {
    ParseRoundTrip(id);
    var products := map[id := Product("Produto do Batista", 150.0)];
    var items := [RawItem(Text(id), Number(100.0), []), RawItem(Text(id), Number(100.0), [])];
    CreateVerdictMeaning(products, Items(items));
    assert items[..1] == [items[0]] && items[..1][..0] == [];
  }

  /** The stock figures of the unit tests: with 150 in stock, asking for 200 is one
      problem and refused, and asking for 100 passes. */
  lemma StockExamples(id: string)
    requires IsCanonical(id)
    ensures var products := map[id := Product("Produto do Batista", 150.0)];
            && StockCheck(products, Items([RawItem(Text(id), Number(200.0), [])])) == Problems(1)
            && StockCheck(products, Items([RawItem(Text(id), Number(100.0), [])])) == Passed
            && CreateVerdict(products, Items([RawItem(Text(id), Number(200.0), [])])) == Some(NotPermitted)
  {
    ParseRoundTrip(id);
    var products := map[id := Product("Produto do Batista", 150.0)];
    var over, within := [RawItem(Text(id), Number(200.0), [])], [RawItem(Text(id), Number(100.0), [])];
    assert !AnyMalformed(over) && over[1..] == [];
    assert StockScan(products, over) == 1;
    assert IsInteger(200.0) && ValidItem(over[0]) && Resolves(products, over[0]) && !InStock(products, over[0]);
    CreateVerdictMeaning(products, Items(over));
    assert !AnyMalformed(within) && within[1..] == [];
    assert StockScan(products, within) == 0;
  }

  /** A sale of 10 out of 150 in stock leaves 140, and re-crediting it restores 150. */
  lemma SaleOfTenExample(id: string)
    requires IsCanonical(id)
    ensures var products := map[id := Product("Produto do Batista", 150.0)];
            var items := [RawItem(Text(id), Number(10.0), [])];
            && ApplyDeltas(products, items, "decrease", {})[id] == Product("Produto do Batista", 140.0)
            && ApplyDeltas(ApplyDeltas(products, items, "decrease", {}), items, "increase", {}) == products
  {
    ParseRoundTrip(id);
    var products := map[id := Product("Produto do Batista", 150.0)];
    var items := [RawItem(Text(id), Number(10.0), [])];
    assert items[..0] == [];
    SaleStockRoundTrip(products, items);
  }

  /** A missing body passes the schema (it is optional) but makes both fan-outs
      throw, so `create` and `updateById` still answer `invalid_data`. */
  lemma MissingBodyIsOneProblem(products: map<string, Product>)
    ensures InputProductsQuantityValidation(Undefined) == None
    ensures ReferentialCheck(products, Undefined) == Problems(1)
    ensures StockCheck(products, Undefined) == Problems(1)
    ensures CreateVerdict(products, Undefined) == Some(WrongProducts)
    ensures !WellFormedSale(products, Undefined)
  {
  }

  /** An id that is not 24 hex digits fails both checks with exactly one problem. */
  lemma MalformedIdIsOneProblem(products: map<string, Product>, items: seq<RawItem>, k: nat)
    requires k < |items| && IdOf(items[k]).Malformed?
    ensures ReferentialCheck(products, Items(items)) == Problems(1)
    ensures StockCheck(products, Items(items)) == Problems(1)
    ensures CreateVerdict(products, Items(items)) == Some(WrongProducts)
  {
  }

  /** `create`: run the three checks, decide, then insert the sale and decrement
      the stock of every item (these updates are assumed to succeed). */
  method Create(store: Store, payload: SalePayload, newId: string) returns (r: Response<SaleRecord>)
    requires store.Valid() && IsCanonical(newId) && newId !in store.sales
    modifies store
    ensures store.Valid()
    ensures store.productOrder == old(store.productOrder)
    ensures CreateVerdict(old(store.products), payload).Some? ==>
              && r == Err(CreateVerdict(old(store.products), payload).value)
              && store.products == old(store.products)
              && store.sales == old(store.sales) && store.saleOrder == old(store.saleOrder)
    ensures CreateVerdict(old(store.products), payload).None? ==>
              && payload.Items?
              && r == Ok(SaleRecord(newId, payload.items))
              && store.sales == old(store.sales)[newId := payload.items]
              && store.saleOrder == old(store.saleOrder) + [newId]
              && store.products == ApplyDeltas(old(store.products), payload.items, "decrease", {})
  {
    var quantity := InputProductsQuantityValidation(payload);
    var available := AvailableProductsValidation(store, payload);
    var availableInStock := AvailableInStockValidation(store, payload);
    if quantity.Some? || available.Problems? {
      return Err(WrongProducts);
    }
    if availableInStock.Problems? {
      return Err(NotPermitted);
    }
    var response := store.InsertSale(newId, payload.items);
    var _ := UpdateQuantityProducts(store, payload.items, "decrease", {}, "");
    return Ok(response);
  }

  // ---------------------------------------------------------------------------
  // getAll, getById, updateById, deleteById

  /** `getAll`: every stored sale, once each, in natural order (the `sales` field). */
  function GetAll(sales: map<string, seq<RawItem>>, order: seq<string>): (r: seq<SaleRecord>)
    requires Indexes(order, sales)
    ensures |r| == |order|
    ensures forall i :: 0 <= i < |r| ==> r[i] == SaleRecord(order[i], sales[order[i]])
    ensures forall id :: id in sales <==> exists i :: 0 <= i < |r| && r[i].id == id
  {
    var r := seq(|order|, i requires 0 <= i < |order| => SaleRecord(order[i], sales[order[i]]));
    assert forall id :: id in sales ==> exists i :: 0 <= i < |order| && order[i] == id;
    r
  }

  /** `getById`: the stored sale, or `not_found` both for a malformed and for an
      unknown id. */
  function GetById(sales: map<string, seq<RawItem>>, id: string): (r: Response<SaleRecord>)
    ensures r.Ok? <==> IsObjectIdText(id) && Canonicalize(id) in sales
    ensures r.Ok? ==> r.value == SaleRecord(Canonicalize(id), sales[Canonicalize(id)])
    ensures !r.Ok? ==> r == Err(SaleNotFound)
  {
    match Find(sales, Parse(Text(id)))
    case Found(items) => Ok(SaleRecord(Parse(Text(id)).id, items))
    case _ => Err(SaleNotFound)
  }

  /** A created sale reads back by its id with exactly the items it was given. */
  lemma CreateThenGetById(sales: map<string, seq<RawItem>>, id: string, items: seq<RawItem>)
    requires IsCanonical(id)
    ensures GetById(sales[id := items], id) == Ok(SaleRecord(id, items))
  {
    ParseRoundTrip(id);
  }

  /** `updateById`: only the schema and the referential check, then replace the
      item list; product stock is never touched. */
  method UpdateById(store: Store, id: string, payload: SalePayload) returns (r: Response<SaleRecord>)
    requires store.Valid()
    modifies store
    ensures store.Valid()
    ensures store.products == old(store.products) && store.productOrder == old(store.productOrder)
    ensures store.saleOrder == old(store.saleOrder)
    ensures !WellFormedSale(old(store.products), payload) ==>
              r == Err(WrongProducts) && store.sales == old(store.sales)
    ensures WellFormedSale(old(store.products), payload) && !(IsObjectIdText(id) && Canonicalize(id) in old(store.sales)) ==>
              r == Err(SaleNotFound) && store.sales == old(store.sales)
    ensures WellFormedSale(old(store.products), payload) && IsObjectIdText(id) && Canonicalize(id) in old(store.sales) ==>
              && r == Ok(SaleRecord(Canonicalize(id), payload.items))
              && store.sales == old(store.sales)[Canonicalize(id) := payload.items]
  {
    ShapeAndReferenceMeaning(store.products, payload);
    var quantity := InputProductsQuantityValidation(payload);
    var available := AvailableProductsValidation(store, payload);
    if quantity.Some? || available.Problems? {
      return Err(WrongProducts);
    }
    match Find(store.sales, Parse(Text(id)))
    case Found(_) =>
      var response := store.ReplaceSale(Parse(Text(id)).id, payload.items);
      return Ok(response);
    case _ =>
      return Err(SaleNotFound);
  }

  /** `deleteById`: `invalid_data` both for a malformed and for an unknown id;
      otherwise remove the sale, re-credit every item's quantity to its product
      (assumed to succeed) and return the sale as it was. */
  method DeleteById(store: Store, id: string) returns (r: Response<SaleRecord>)
    requires store.Valid()
    modifies store
    ensures store.Valid()
    ensures store.productOrder == old(store.productOrder)
    ensures !(IsObjectIdText(id) && Canonicalize(id) in old(store.sales)) ==>
              && r == Err(WrongSaleId)
              && store.products == old(store.products)
              && store.sales == old(store.sales) && store.saleOrder == old(store.saleOrder)
    ensures IsObjectIdText(id) && Canonicalize(id) in old(store.sales) ==>
              && r == Ok(SaleRecord(Canonicalize(id), old(store.sales)[Canonicalize(id)]))
              && store.sales == old(store.sales) - {Canonicalize(id)}
              && store.saleOrder == Without(old(store.saleOrder), Canonicalize(id))
              && store.products == ApplyDeltas(old(store.products), old(store.sales)[Canonicalize(id)], "increase", {})
  {
    var saleExists := Find(store.sales, Parse(Text(id)));
    match saleExists
    case Found(products) =>
      var key := Parse(Text(id)).id;
      store.RemoveSale(key);
      var _ := UpdateQuantityProducts(store, products, "increase", {}, "");
      return Ok(SaleRecord(key, products));
    case _ =>
      return Err(WrongSaleId);
  }
}
