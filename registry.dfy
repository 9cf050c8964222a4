// The order registry: `ShippingQuerySystem` with its dictionary of orders, the
// order-id format, the status lookup and the query entry point.

module Registry {
  import opened Common
  import opened Text
  import opened ShippingStatus
  import opened Orders
  import opened Query

  /** The range of the random draw behind an order id (both ends included). */
  const MinDraw: int := 10000
  const MaxDraw: int := 99999

  const IdPrefix: string := "ORD-"

  /** The error text of a lookup for an unknown order id. */
  const OrderNotFound: string := "Order not found"

  /** A five-digit number is written with five digits. */
  lemma FiveDigits(n: nat)
    requires MinDraw <= n <= MaxDraw
    ensures |Decimal(n)| == 5
  {
    var a := n / 10;
    var b := a / 10;
    var c := b / 10;
    var d := c / 10;
    assert 1 <= d < 10;
    assert |Decimal(c)| == 2;
    assert |Decimal(b)| == 3;
    assert |Decimal(a)| == 4;
  }

  /** The order id made from a draw: "ORD-" followed by the five digits of the draw,
      which can be read back from it. */
  function OrderId(draw: int): (id: string)
    requires MinDraw <= draw <= MaxDraw
    ensures |id| == |IdPrefix| + 5 && id[..|IdPrefix|] == IdPrefix
    ensures forall i :: |IdPrefix| <= i < |id| ==> '0' <= id[i] <= '9'
    ensures DecimalValue(id[|IdPrefix|..]) == draw
  {
    FiveDigits(draw);
    DecimalRoundTrip(draw);
    assert (IdPrefix + Decimal(draw))[|IdPrefix|..] == Decimal(draw);
    IdPrefix + Decimal(draw)
  }

  /** Different draws give different ids, so two orders collide only when the
      draws do. */
  lemma OrderIdInjective(a: int, b: int)
    requires MinDraw <= a <= MaxDraw && MinDraw <= b <= MaxDraw
    ensures OrderId(a) == OrderId(b) <==> a == b
  {
  }

  /** The record `get_shipping_status` returns for a known order; the two dates are
      rendered by the injected formatter. */
  datatype ShippingInfo = ShippingInfo(
    orderId: string,
    currentStatus: string,
    orderDate: string,
    estimatedDelivery: string,
    currentLocation: string,
    trackingHistory: seq<TrackingUpdate>)

  /** `get_shipping_status`'s result: the record, or an error value. */
  datatype StatusReply = Info(info: ShippingInfo) | Error(error: string)

  class ShippingQuerySystem {
    var orders: map<string, Order>

    /** Every order is filed under its own id, is due five days after it was
        placed, and keeps its location and status in step with its history. */
    ghost predicate Valid()
      reads this, orders.Values
    {
      forall id :: id in orders ==>
        && orders[id].orderId == id
        && orders[id].estimatedDelivery == orders[id].orderDate + DeliveryWindow
        && orders[id].Valid()
    }

    constructor ()
      ensures orders == map[]
      ensures Valid()
    {
      orders := map[];
    }

    /** `create_order` with the random draw and the current time given by the
        caller: files a fresh order under `OrderId(draw)`, replacing any order
        already filed under that id, and leaves every other entry as it was. */
    method CreateOrder(customerId: string, items: seq<string>, draw: int, now: Time)
      returns (orderId: string)
      requires MinDraw <= draw <= MaxDraw
      modifies this
      ensures orderId == OrderId(draw)
      ensures orderId in orders && fresh(orders[orderId])
      ensures orders == old(orders)[orderId := orders[orderId]]
      ensures orders[orderId].orderId == orderId
      ensures orders[orderId].customerId == customerId && orders[orderId].items == items
      ensures orders[orderId].orderDate == now
      ensures orders[orderId].estimatedDelivery == now + DeliveryWindow
      ensures orders[orderId].State() == Initial
      ensures old(Valid()) ==> Valid()
    {
      orderId := OrderId(draw);
      var order := new Order(orderId, customerId, items, now, now + DeliveryWindow);
      orders := orders[orderId := order];
    }

    /** `get_shipping_status`: the error value for an unknown id, otherwise the
        order's fields with the status as its display text and both dates
        formatted by `stamp`. */
    function GetShippingStatus(orderId: string, stamp: Time -> string): (r: StatusReply)
      reads this, orders.Values
      ensures r.Error? <==> orderId !in orders
      ensures r.Error? ==> r.error == OrderNotFound
      ensures r.Info? ==>
        && r.info.orderId == orders[orderId].orderId
        && FromValue(r.info.currentStatus) == Some(orders[orderId].status)
        && r.info.currentLocation == orders[orderId].currentLocation
        && r.info.trackingHistory == orders[orderId].trackingUpdates
        && r.info.orderDate == stamp(orders[orderId].orderDate)
        && r.info.estimatedDelivery == stamp(orders[orderId].estimatedDelivery)
    {
      if orderId !in orders then
        Error(OrderNotFound)
      else
        var order := orders[orderId];
        ValueRoundTrip(order.status);
        Info(ShippingInfo(order.orderId, Value(order.status), stamp(order.orderDate),
                          stamp(order.estimatedDelivery), order.currentLocation,
                          order.trackingUpdates))
    }

    /** `process_query`: the apology for an unknown id, otherwise the answer
        computed from the order's current fields. */
    function ProcessQuery(query: string, orderId: string, stamp: Time -> string,
                          longDate: Time -> string): (r: string)
      reads this, orders.Values
      ensures orderId !in orders ==> r == NotFoundReply
      ensures orderId in orders ==>
        r == Answer(query, orders[orderId].State(), orders[orderId].estimatedDelivery, stamp, longDate)
      ensures orderId in orders ==> r != NotFoundReply
    {
      if orderId !in orders then
        NotFoundReply
      else
        var order := orders[orderId];
        AnswerIsNotApology(query, order.State(), order.estimatedDelivery, stamp, longDate);
        Answer(query, order.State(), order.estimatedDelivery, stamp, longDate)
    }

    /** In a valid registry, the record found for an id carries that id. */
    lemma LookupKeepsId(orderId: string, stamp: Time -> string)
      requires Valid()
      requires orderId in orders
      ensures GetShippingStatus(orderId, stamp).Info?
      ensures GetShippingStatus(orderId, stamp).info.orderId == orderId
    {
    }
  }
}
