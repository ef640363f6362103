/**
 * The records of the orders service and the pure computations of its
 * lifecycle: the first-match product lookup, the two totals folds of
 * `create`, the price snapshot of each line item, the name enrichment of
 * `create` and `findOne`, the status filter and offset window of `findAll`
 * with its last-page arithmetic, and the status overwrite of
 * `changeOrderStatus`.
 *
 * Money is an integer (cents, say); prices and totals never round.
 */
module OrderModel {
  import opened JsValues
  import opened Sequences

  datatype Option<T> = None | Some(value: T)

  /** The result of a lifecycle operation; an error carries the payload that was thrown. */
  datatype Result<T> = Ok(value: T) | Err(error: Value)

  /**
   * The order status enumeration of the database schema. The schema is not
   * part of this model; its default for a new order is taken to be Pending.
   */
  datatype OrderStatus = Pending | Delivered | Cancelled

  /** A product as the products service answers `validateProducts`. */
  datatype Product = Product(id: string, name: string, price: int)

  /** One requested line of a new order. */
  datatype OrderItemDto = OrderItemDto(productId: string, quantity: int)

  /** A persisted line item: the product, the quantity, and the price it had at creation. */
  datatype OrderItem = OrderItem(productId: string, quantity: int, price: int)

  /** A persisted order with its line items. */
  datatype Order = Order(id: string, status: OrderStatus, totalAmount: int, totalItems: int, items: seq<OrderItem>)

  /** The scalar columns of an order: what a query without `include` returns. */
  datatype OrderSummary = OrderSummary(id: string, status: OrderStatus, totalAmount: int, totalItems: int)

  /** A line item extended with its product's name. */
  datatype NamedItem = NamedItem(productId: string, quantity: int, price: int, name: string)

  /** An order whose line items carry their product names. */
  datatype OrderView = OrderView(id: string, status: OrderStatus, totalAmount: int, totalItems: int, items: seq<NamedItem>)

  /** The pagination metadata of `findAll`. */
  datatype PageMeta = PageMeta(page: int, total: nat, lastPage: nat)

  /** The answer of `findAll`. */
  datatype OrderPage = OrderPage(data: seq<OrderSummary>, meta: PageMeta)

  /**
   * The TypeError V8 throws for `undefined.<property>`, as a payload: a
   * `name` and a `message`, and no `statusCode`.
   */
  function ReadOfUndefined(property: string): (r: Value)
    ensures r.Obj? && "statusCode" !in r.fields && "message" in r.fields
    ensures "name" in r.fields && r.fields["name"] == Str("TypeError")
  {
    Obj(map["name" := Str("TypeError"),
            "message" := Str("Cannot read properties of undefined (reading '" + property + "')")])
  }

  // ---- products.find(p => p.id === id) ----

  /** The index of the first product with id `id`, or |products| if there is none. */
  function FirstProductIndex(products: seq<Product>, id: string): nat {
    FirstIndex(products, (p: Product) => p.id == id)
  }

  /** The first product with id `id`, or None (JavaScript's undefined) when none has it. */
  function FindProduct(products: seq<Product>, id: string): (r: Option<Product>)
    ensures r.None? <==> forall j :: 0 <= j < |products| ==> products[j].id != id
    ensures r.Some? ==> r.value.id == id && r.value in products
    ensures r.Some? ==>
      var k := FirstProductIndex(products, id);
      && k < |products| && r.value == products[k]
      && forall j :: 0 <= j < k ==> products[j].id != id
  {
    var k := FirstProductIndex(products, id);
    if k < |products| then Some(products[k]) else None
  }

  /** Every item's product id has a match in the lookup answer. */
  predicate AllResolved(items: seq<OrderItemDto>, products: seq<Product>) {
    forall i :: 0 <= i < |items| ==> FindProduct(products, items[i].productId).Some?
  }

  /** A non-empty request resolves exactly when its first item and the rest do. */
  lemma AllResolvedSplit(items: seq<OrderItemDto>, products: seq<Product>)
    requires |items| > 0
    ensures AllResolved(items, products) <==>
      FindProduct(products, items[0].productId).Some? && AllResolved(items[1..], products)
  {
    if FindProduct(products, items[0].productId).Some? && AllResolved(items[1..], products) {
      forall i | 0 <= i < |items| ensures FindProduct(products, items[i].productId).Some? {
        if i > 0 { assert items[i] == items[1..][i - 1]; }
      }
    }
    if AllResolved(items, products) {
      forall i | 0 <= i < |items| - 1 ensures FindProduct(products, items[1..][i].productId).Some? {
        assert items[1..][i] == items[i + 1];
      }
    }
  }

  /** Every stored item's product id has a match in the lookup answer. */
  predicate AllItemsResolved(items: seq<OrderItem>, products: seq<Product>) {
    forall i :: 0 <= i < |items| ==> FindProduct(products, items[i].productId).Some?
  }

  /** A non-empty list of stored items resolves exactly when its first item and the rest do. */
  lemma AllItemsResolvedSplit(items: seq<OrderItem>, products: seq<Product>)
    requires |items| > 0
    ensures AllItemsResolved(items, products) <==>
      FindProduct(products, items[0].productId).Some? && AllItemsResolved(items[1..], products)
  {
    if FindProduct(products, items[0].productId).Some? && AllItemsResolved(items[1..], products) {
      forall i | 0 <= i < |items| ensures FindProduct(products, items[i].productId).Some? {
        if i > 0 { assert items[i] == items[1..][i - 1]; }
      }
    }
    if AllItemsResolved(items, products) {
      forall i | 0 <= i < |items| - 1 ensures FindProduct(products, items[1..][i].productId).Some? {
        assert items[1..][i] == items[i + 1];
      }
    }
  }

  // ---- the two reduce calls of create ----

  /**
   * `items.reduce((acc, product) => acc + price * product.quantity, acc)`,
   * where `price` is that of the first matching product; the fold throws
   * (None) at the first item without a match.
   */
  function AmountFold(items: seq<OrderItemDto>, products: seq<Product>, acc: int): (r: Option<int>)
    ensures r.Some? <==> AllResolved(items, products)
  {
    if |items| == 0 then Some(acc)
    else
      AllResolvedSplit(items, products);
      match FindProduct(products, items[0].productId)
      case None => None
      case Some(p) => AmountFold(items[1..], products, acc + p.price * items[0].quantity)
  }

  /**
   * `items.reduce((acc, item) => acc + item.quantity, acc)`; with no negative
   * quantity the total never falls below the starting value.
   */
  function QuantityFold(items: seq<OrderItemDto>, acc: int): (r: int)
    ensures (forall i :: 0 <= i < |items| ==> items[i].quantity >= 0) ==> r >= acc
  {
    if |items| == 0 then acc
    else
      assert forall i :: 0 <= i < |items| - 1 ==> items[1..][i] == items[i + 1];
      QuantityFold(items[1..], acc + items[0].quantity)
  }

  // ---- reference sums over persisted items ----

  /** The number of units in a list of line items. */
  function SumQuantities(items: seq<OrderItem>): int {
    if |items| == 0 then 0 else items[0].quantity + SumQuantities(items[1..])
  }

  /** The amount of a list of line items at their snapshot prices. */
  function SumAmounts(items: seq<OrderItem>): int {
    if |items| == 0 then 0 else items[0].price * items[0].quantity + SumAmounts(items[1..])
  }

  /** An order's totals agree with its line items. */
  predicate Consistent(o: Order) {
    o.totalItems == SumQuantities(o.items) && o.totalAmount == SumAmounts(o.items)
  }

  // ---- the item mapping of create ----

  /**
   * `items.map(item => ({quantity, productId, price: products.find(..).price}))`:
   * None when some item has no matching product.
   */
  function PriceItems(items: seq<OrderItemDto>, products: seq<Product>): (r: Option<seq<OrderItem>>)
    ensures r.Some? <==> AllResolved(items, products)
    ensures r.Some? ==> |r.value| == |items|
    ensures r.Some? ==> forall i :: 0 <= i < |items| ==>
      r.value[i] == OrderItem(items[i].productId, items[i].quantity,
                              FindProduct(products, items[i].productId).value.price)
  {
    if |items| == 0 then Some([])
    else match FindProduct(products, items[0].productId)
      case None => None
      case Some(p) =>
        AllResolvedSplit(items, products);
        match PriceItems(items[1..], products)
        case None => None
        case Some(rest) => Some([OrderItem(items[0].productId, items[0].quantity, p.price)] + rest)
  }

  /** The amount fold succeeds exactly when every item resolves, and then equals the priced items' amount. */
  lemma {:induction false} AmountFoldMatchesItems(items: seq<OrderItemDto>, products: seq<Product>, acc: int)
    ensures AmountFold(items, products, acc).Some? <==> AllResolved(items, products)
    ensures AllResolved(items, products) ==>
      AmountFold(items, products, acc) == Some(acc + SumAmounts(PriceItems(items, products).value))
  {
    if |items| > 0 {
      match FindProduct(products, items[0].productId)
      case None =>
      case Some(p) =>
        AmountFoldMatchesItems(items[1..], products, acc + p.price * items[0].quantity);
        AllResolvedSplit(items, products);
    }
  }

  /** The quantity fold equals the units of the priced items, when every item resolves. */
  lemma {:induction false} QuantityFoldMatchesItems(items: seq<OrderItemDto>, products: seq<Product>, acc: int)
    requires AllResolved(items, products)
    ensures QuantityFold(items, acc) == acc + SumQuantities(PriceItems(items, products).value)
  {
    if |items| > 0 {
      var priced := PriceItems(items, products).value;
      AllResolvedSplit(items, products);
      QuantityFoldMatchesItems(items[1..], products, acc + items[0].quantity);
      var rest := PriceItems(items[1..], products).value;
      assert priced[1..] == rest by {
        forall i | 0 <= i < |rest| ensures priced[1..][i] == rest[i] {
          assert items[1..][i] == items[i + 1];
        }
      }
    }
  }

  // ---- the name enrichment of create and findOne ----

  /**
   * `items.map(item => ({...item, name: products.find(..).name}))`:
   * None when some item has no matching product.
   */
  function NameItems(items: seq<OrderItem>, products: seq<Product>): (r: Option<seq<NamedItem>>)
    ensures r.Some? <==> AllItemsResolved(items, products)
    ensures r.Some? ==> |r.value| == |items|
    ensures r.Some? ==> forall i :: 0 <= i < |items| ==>
      r.value[i] == NamedItem(items[i].productId, items[i].quantity, items[i].price,
                              FindProduct(products, items[i].productId).value.name)
  {
    if |items| == 0 then Some([])
    else match FindProduct(products, items[0].productId)
      case None => None
      case Some(p) =>
        AllItemsResolvedSplit(items, products);
        match NameItems(items[1..], products)
        case None => None
        case Some(rest) => Some([NamedItem(items[0].productId, items[0].quantity, items[0].price, p.name)] + rest)
  }

  /** Dropping the names of enriched items gives back the stored items. */
  function Unnamed(items: seq<NamedItem>): (r: seq<OrderItem>)
    ensures |r| == |items|
    ensures forall i :: 0 <= i < |items| ==>
      r[i] == OrderItem(items[i].productId, items[i].quantity, items[i].price)
  {
    seq(|items|, i requires 0 <= i < |items| => OrderItem(items[i].productId, items[i].quantity, items[i].price))
  }

  /** Enrichment only adds names: removing them restores the stored items, in order. */
  lemma NameItemsKeepsItems(items: seq<OrderItem>, products: seq<Product>)
    requires AllItemsResolved(items, products)
    ensures Unnamed(NameItems(items, products).value) == items
  {
  }

  /** The items create persists resolve against the same answer, so its enrichment cannot fail. */
  lemma PricedItemsResolve(items: seq<OrderItemDto>, products: seq<Product>)
    requires AllResolved(items, products)
    ensures AllItemsResolved(PriceItems(items, products).value, products)
  {
  }

  /** The scalar columns of an order. */
  function Summary(o: Order): OrderSummary {
    OrderSummary(o.id, o.status, o.totalAmount, o.totalItems)
  }

  /** An order with its line items replaced by enriched ones. */
  function View(o: Order, named: seq<NamedItem>): OrderView {
    OrderView(o.id, o.status, o.totalAmount, o.totalItems, named)
  }

  /**
   * `v` is order `o` with each of its items, in order, extended by the name of
   * the first product in `products` with the item's product id; every other
   * field is `o`'s.
   */
  ghost predicate IsEnrichmentOf(v: OrderView, o: Order, products: seq<Product>) {
    && v.id == o.id && v.status == o.status
    && v.totalAmount == o.totalAmount && v.totalItems == o.totalItems
    && Unnamed(v.items) == o.items
    && forall i :: 0 <= i < |o.items| ==>
         FindProduct(products, o.items[i].productId).Some?
         && v.items[i].name == FindProduct(products, o.items[i].productId).value.name
  }

  /** `{...order, OrderItem: enriched}`, or the TypeError of reading `.name` of undefined. */
  function Enrich(o: Order, products: seq<Product>): (r: Result<OrderView>)
    ensures r.Ok? <==> AllItemsResolved(o.items, products)
    ensures r.Ok? ==> IsEnrichmentOf(r.value, o, products)
    ensures r.Err? ==> r.error == ReadOfUndefined("name")
  {
    match NameItems(o.items, products)
    case None => Err(ReadOfUndefined("name"))
    case Some(named) =>
      NameItemsKeepsItems(o.items, products);
      Ok(View(o, named))
  }

  // ---- findAll ----

  /** `where: { status }`, where an absent status puts no condition. */
  predicate Matches(o: Order, status: Option<OrderStatus>) {
    status.None? || o.status == status.value
  }

  /** The orders that match the filter, in store order. */
  function Filtered(orders: seq<Order>, status: Option<OrderStatus>): (r: seq<Order>)
    ensures |r| <= |orders|
    ensures forall o :: o in r <==> o in orders && Matches(o, status)
    ensures status.None? ==> r == orders
    ensures forall o :: multiset(r)[o] == if Matches(o, status) then multiset(orders)[o] else 0
  {
    if |orders| == 0 then []
    else
      assert orders == [orders[0]] + orders[1..];
      if Matches(orders[0], status) then [orders[0]] + Filtered(orders[1..], status)
      else Filtered(orders[1..], status)
  }

  /** The number of orders that match the filter: `order.count({ where: { status } })`. */
  function CountMatching(orders: seq<Order>, status: Option<OrderStatus>): (r: nat)
    ensures r <= |orders|
    ensures status.None? ==> r == |orders|
  {
    if |orders| == 0 then 0
    else (if Matches(orders[0], status) then 1 else 0) + CountMatching(orders[1..], status)
  }

  /** The count query and the list query agree on how many orders match. */
  lemma {:induction false} CountIsFilteredLength(orders: seq<Order>, status: Option<OrderStatus>)
    ensures CountMatching(orders, status) == |Filtered(orders, status)|
  {
    if |orders| > 0 {
      CountIsFilteredLength(orders[1..], status);
    }
  }

  /**
   * `Math.ceil(n / d)` on integers. Exactly one number of pages `r` has
   * `n <= r * d < n + d`: the least that holds `n` orders.
   */
  function CeilDiv(n: nat, d: nat): (r: nat)
    requires d >= 1
    ensures n <= r * d < n + d
  {
    (n + d - 1) / d
  }

  /** `skip: skip, take: take` on a sequence. */
  function Window<T>(s: seq<T>, skip: nat, take: nat): (r: seq<T>)
    ensures |r| <= take
    ensures skip >= |s| ==> r == []
    ensures skip < |s| ==> |r| == if skip + take <= |s| then take else |s| - skip
    ensures forall j :: 0 <= j < |r| ==> skip + j < |s| && r[j] == s[skip + j]
  {
    var lo := if skip <= |s| then skip else |s|;
    var hi := if skip + take <= |s| then skip + take else |s|;
    s[lo..hi]
  }

  /** The offset of a page: `(page - 1) * limit`. */
  function Offset(page: int, limit: int): nat
    requires page >= 1 && limit >= 1
  {
    (page - 1) * limit
  }

  /** The page of orders `findMany` returns: at most `limit` of them, from the page's offset on. */
  function PageOf(s: seq<Order>, page: int, limit: int): (r: seq<Order>)
    requires page >= 1 && limit >= 1
    ensures |r| <= limit
    ensures forall j :: 0 <= j < |r| ==> Offset(page, limit) + j < |s| && r[j] == s[Offset(page, limit) + j]
  {
    Window(s, Offset(page, limit), limit)
  }

  /** Every matching order is on exactly the page its position gives, at the slot its position gives. */
  lemma PagesCoverAll(s: seq<Order>, limit: int, i: nat)
    requires limit >= 1 && i < |s|
    ensures var page := i / limit + 1;
      i % limit < |PageOf(s, page, limit)| && PageOf(s, page, limit)[i % limit] == s[i]
  {
    var page := i / limit + 1;
    assert Offset(page, limit) + i % limit == i;
  }

  /** The pages up to the last page are non-empty, and the pages after it are empty. */
  lemma PagesEndAtLastPage(s: seq<Order>, page: int, limit: int)
    requires page >= 1 && limit >= 1
    ensures PageOf(s, page, limit) == [] <==> page > CeilDiv(|s|, limit)
  {
    var last := CeilDiv(|s|, limit);
    if page > last {
      assert Offset(page, limit) >= last * limit;
    } else {
      assert Offset(page, limit) <= (last - 1) * limit;
    }
  }

  /** The summaries of a list of orders, in order. */
  function Summaries(os: seq<Order>): (r: seq<OrderSummary>)
    ensures |r| == |os|
    ensures forall j :: 0 <= j < |os| ==> r[j] == Summary(os[j])
  {
    seq(|os|, j requires 0 <= j < |os| => Summary(os[j]))
  }

  // ---- changeOrderStatus ----

  /** Order ids are unique in the store. */
  predicate UniqueIds(orders: seq<Order>) {
    forall i, j :: 0 <= i < j < |orders| ==> orders[i].id != orders[j].id
  }

  /** `findUnique` by id: the index of the first order with id `id`, or |orders| if none has it. */
  function IndexOfOrder(orders: seq<Order>, id: string): (r: nat)
    ensures r <= |orders|
    ensures r < |orders| ==> orders[r].id == id
    ensures forall j :: 0 <= j < r ==> orders[j].id != id
  {
    FirstIndex(orders, (o: Order) => o.id == id)
  }

  /** An order appended under an id new to the store is found at the end. */
  lemma IndexOfAppended(orders: seq<Order>, o: Order)
    requires forall k :: 0 <= k < |orders| ==> orders[k].id != o.id
    ensures IndexOfOrder(orders + [o], o.id) == |orders|
  {
    var s := orders + [o];
    var k := IndexOfOrder(s, o.id);
    assert s[|orders|].id == o.id;
    assert forall j :: 0 <= j < |orders| ==> s[j] == orders[j];
  }

  /**
   * `order.update({ where: { id }, data: { status } })`: the order with that id
   * gets the new status, whatever its old one was; nothing else changes.
   */
  function SetStatus(orders: seq<Order>, id: string, status: OrderStatus): (r: seq<Order>)
    ensures |r| == |orders|
    ensures forall i :: 0 <= i < |orders| ==>
      r[i] == if orders[i].id == id then orders[i].(status := status) else orders[i]
  {
    seq(|orders|, i requires 0 <= i < |orders| =>
      if orders[i].id == id then orders[i].(status := status) else orders[i])
  }

  /** Overwriting the status keeps the ids unique and every order's totals consistent. */
  lemma SetStatusPreservesStore(orders: seq<Order>, id: string, status: OrderStatus)
    requires UniqueIds(orders) && forall i :: 0 <= i < |orders| ==> Consistent(orders[i])
    ensures var r := SetStatus(orders, id, status);
      UniqueIds(r) && forall i :: 0 <= i < |r| ==> Consistent(r[i])
  {
  }

  /** Writing the status an order already has leaves the store as it was: the short-circuit loses nothing. */
  lemma SetSameStatusIsIdentity(orders: seq<Order>, id: string)
    requires UniqueIds(orders)
    requires IndexOfOrder(orders, id) < |orders|
    ensures SetStatus(orders, id, orders[IndexOfOrder(orders, id)].status) == orders
  {
    var k := IndexOfOrder(orders, id);
    var r := SetStatus(orders, id, orders[k].status);
    forall i | 0 <= i < |orders| ensures r[i] == orders[i] {
      if orders[i].id == id {
        assert i == k;
      }
    }
  }

  /** Any status may follow any other: the update always lands, and a second one with the same status changes nothing. */
  lemma SetStatusLandsAndIsIdempotent(orders: seq<Order>, id: string, status: OrderStatus)
    requires IndexOfOrder(orders, id) < |orders|
    ensures SetStatus(orders, id, status)[IndexOfOrder(orders, id)].status == status
    ensures SetStatus(SetStatus(orders, id, status), id, status) == SetStatus(orders, id, status)
  {
  }
}
