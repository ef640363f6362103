/**
 * The orders service: create, list, fetch and change the status of orders
 * held in an order store, pricing and naming line items from the answer of
 * the products service.
 *
 * The store is the field `orders`, in insertion order. The answer of the
 * products service's `validateProducts` for a call is passed in as `lookup`
 * (a product list, or the error payload the remote call rejected with), and
 * the id the database would generate for a new order is passed in as
 * `freshId`.
 */
module Orders {
  import opened JsValues
  import opened OrderModel
  import opened RpcExceptionFilter

  /** The answer of `changeOrderStatus`: the enriched order as found, or the updated row. */
  datatype StatusChange = Unchanged(order: OrderView) | Updated(row: OrderSummary)

  const NotFound: int := 404

  /** The payload `findOne` throws for an unknown id: shaped like an error, with code 404. */
  function NotFoundError(id: string): (r: Value)
    ensures IsErrorShaped(r) && r.fields["statusCode"] == Num(NotFound)
    ensures r.fields["message"] == Str("Order with id " + id + " not found")
  {
    Obj(map["message" := Str("Order with id " + id + " not found"), "statusCode" := Num(NotFound)])
  }

  class OrdersService {
    /** The order store. */
    var orders: seq<Order>

    /** Ids are unique and every order's totals agree with its line items. */
    ghost predicate Valid()
      reads this
    {
      UniqueIds(orders) && forall i :: 0 <= i < |orders| ==> Consistent(orders[i])
    }

    constructor ()
      ensures Valid() && orders == []
    {
      orders := [];
    }

    /**
     * `create`: price every item from the lookup answer, fold the totals,
     * persist the order with its items, and return it with product names.
     * Any failure before the write (the remote call, an unknown product)
     * leaves the store as it was.
     */
    method Create(items: seq<OrderItemDto>, lookup: Result<seq<Product>>, freshId: string)
      returns (r: Result<OrderView>)
      requires Valid()
      requires forall k :: 0 <= k < |orders| ==> orders[k].id != freshId
      modifies this
      ensures Valid()
      ensures lookup.Err? ==> r == Err(lookup.error) && orders == old(orders)
      ensures lookup.Ok? && !AllResolved(items, lookup.value) ==>
        r == Err(ReadOfUndefined("price")) && orders == old(orders)
      ensures lookup.Ok? && AllResolved(items, lookup.value) ==>
        var stored := PriceItems(items, lookup.value).value;
        && orders == old(orders) + [Order(freshId, Pending, SumAmounts(stored), SumQuantities(stored), stored)]
        && r.Ok? && IsEnrichmentOf(r.value, orders[|orders| - 1], lookup.value)
        && r == FindOne(freshId, lookup)
    {
      match lookup {
        case Err(e) =>
          r := Err(e);
        case Ok(products) =>
          var totalAmount := AmountFold(items, products, 0);
          AmountFoldMatchesItems(items, products, 0);
          if totalAmount.None? {
            r := Err(ReadOfUndefined("price"));
            return;
          }
          var totalItems := QuantityFold(items, 0);
          QuantityFoldMatchesItems(items, products, 0);
          var stored := PriceItems(items, products).value;
          var order := Order(freshId, Pending, totalAmount.value, totalItems, stored);
          IndexOfAppended(orders, order);
          orders := orders + [order];
          PricedItemsResolve(items, products);
          r := Enrich(order, products);
      }
    }

    /**
     * `findAll`: the `limit` orders at offset `(page - 1) * limit` among those
     * matching the status filter, with the page, the number of matching
     * orders and the last page.
     */
    function FindAll(page: int, limit: int, status: Option<OrderStatus>): (r: OrderPage)
      reads this
      requires page >= 1 && limit >= 1
      ensures |r.data| <= limit
      ensures r.meta.page == page
      ensures r.meta.total == |Filtered(orders, status)|
      ensures r.meta.total <= r.meta.lastPage * limit < r.meta.total + limit
      ensures forall j :: 0 <= j < |r.data| ==>
        Offset(page, limit) + j < r.meta.total
        && r.data[j] == Summary(Filtered(orders, status)[Offset(page, limit) + j])
      ensures Offset(page, limit) >= r.meta.total ==> r.data == []
      ensures Offset(page, limit) < r.meta.total ==>
        |r.data| == if Offset(page, limit) + limit <= r.meta.total then limit
                    else r.meta.total - Offset(page, limit)
      ensures status.Some? ==> forall j :: 0 <= j < |r.data| ==> r.data[j].status == status.value
    {
      var totalOrders := CountMatching(orders, status);
      CountIsFilteredLength(orders, status);
      var data := Summaries(PageOf(Filtered(orders, status), page, limit));
      assert status.Some? ==> forall j :: 0 <= j < |data| ==> data[j].status == status.value by {
        var shown := PageOf(Filtered(orders, status), page, limit);
        forall j | 0 <= j < |data| && status.Some? ensures data[j].status == status.value {
          assert shown[j] in Filtered(orders, status);
        }
      }
      OrderPage(data, PageMeta(page, totalOrders, CeilDiv(totalOrders, limit)))
    }

    /**
     * `findOne`: the order with id `id` enriched with product names; the
     * not-found payload for an unknown id, the remote error when the lookup
     * failed, and the TypeError of `.name` when an item's product is missing.
     */
    function FindOne(id: string, lookup: Result<seq<Product>>): (r: Result<OrderView>)
      reads this
      ensures (forall k :: 0 <= k < |orders| ==> orders[k].id != id) ==> r == Err(NotFoundError(id))
      ensures var k := IndexOfOrder(orders, id);
        k < |orders| && lookup.Err? ==> r == Err(lookup.error)
      ensures var k := IndexOfOrder(orders, id);
        k < |orders| && lookup.Ok? ==>
          && (r.Ok? <==> AllItemsResolved(orders[k].items, lookup.value))
          && (r.Ok? ==> IsEnrichmentOf(r.value, orders[k], lookup.value))
          && (r.Err? ==> r.error == ReadOfUndefined("name"))
    {
      var k := IndexOfOrder(orders, id);
      if k == |orders| then Err(NotFoundError(id))
      else match lookup
        case Err(e) => Err(e)
        case Ok(products) => Enrich(orders[k], products)
    }

    /**
     * `changeOrderStatus`: fetch the order as `findOne` does; if it already
     * has the requested status return it and write nothing, otherwise
     * overwrite its status, whatever the old one, and return the updated row.
     */
    method ChangeOrderStatus(id: string, status: OrderStatus, lookup: Result<seq<Product>>)
      returns (r: Result<StatusChange>)
      requires Valid()
      modifies this
      ensures Valid()
      ensures old(FindOne(id, lookup)).Err? ==>
        r == Err(old(FindOne(id, lookup)).error) && orders == old(orders)
      ensures old(FindOne(id, lookup)).Ok? && old(FindOne(id, lookup)).value.status == status ==>
        r == Ok(Unchanged(old(FindOne(id, lookup)).value)) && orders == old(orders)
      ensures old(FindOne(id, lookup)).Ok? && old(FindOne(id, lookup)).value.status != status ==>
        var k := IndexOfOrder(old(orders), id);
        && k < |orders|
        && orders == SetStatus(old(orders), id, status)
        && orders[k] == old(orders)[k].(status := status)
        && r == Ok(Updated(Summary(orders[k])))
    {
      var found := FindOne(id, lookup);
      if found.Err? {
        r := Err(found.error);
        return;
      }
      if found.value.status == status {
        r := Ok(Unchanged(found.value));
        return;
      }
      var k := IndexOfOrder(orders, id);
      SetStatusPreservesStore(orders, id, status);
      orders := SetStatus(orders, id, status);
      r := Ok(Updated(Summary(orders[k])));
    }
  }

  /** The not-found payload passes through the exception filter as a 404. */
  lemma NotFoundIsSentAs404(id: string)
    ensures Catch(NotFoundError(id)) == Response(Num(NotFound), NotFoundError(id))
  {
  }

  /**
   * The TypeError `create` rethrows for an unknown product (reading `.price`)
   * is not shaped like an error, so the filter wraps it with 400.
   */
  lemma UnknownProductIsSentAs400()
    ensures Catch(ReadOfUndefined("price")) == Response(Num(BadRequest), Wrapped(ReadOfUndefined("price")))
  {
  }

  /**
   * Two products priced 10 and 5, ordered twice and once: the order totals
   * 25 for 3 units, and fetching it gives its items their names back.
   */
  method CreateThenFindOne()
  {
    var service := new OrdersService();
    var products := [Product("P1", "A", 10), Product("P2", "B", 5)];
    var items := [OrderItemDto("P1", 2), OrderItemDto("P2", 1)];
    assert FindProduct(products, "P1") == Some(products[0]);
    assert FindProduct(products, "P2") == Some(products[1]);
    assert AllResolved(items, products);
    var created := service.Create(items, Ok(products), "order-1");
    var stored := PriceItems(items, products).value;
    assert stored == [OrderItem("P1", 2, 10), OrderItem("P2", 1, 5)];
    assert created.value.totalAmount == 25 && created.value.totalItems == 3;
    var fetched := service.FindOne("order-1", Ok(products));
    assert fetched == created;
    assert fetched.value.items[0].name == "A" && fetched.value.items[1].name == "B";
  }
}
