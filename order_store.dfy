/**
 * The guarded, all-or-nothing writes of db_helper.py: `place_order`,
 * `delete_order`, `update_shipping_address` and `save_new_shipping_address`.
 *
 * The database is a value of committed tables plus the buffer of writes the
 * open transaction has issued; `commit` applies the buffer, `rollback` drops
 * it. Which statement raises is not something the code decides, so each
 * operation takes `failAt`: the position, counting from 0 and counting the
 * final commit, of the first statement of the call that raises, or None.
 */
module OrderStore {
  import opened Wrappers
  import opened PyValues
  import opened DbRules

  /** The only status in which an order may be deleted or re-addressed. */
  const Processing := "Processing"
  /** The payment and order status of a freshly placed order. */
  const PendingStatus := "pending"

  /** The `order_details` dict that `place_order` reads. Money and dates are
      stored as given. */
  datatype OrderDetails = OrderDetails(
    customerId: int, paymentMethodId: int, shippingMethodId: int, shippingAddressId: int,
    promotionId: Option<int>, totalAmount: real, shippingFee: real, discount: real,
    estimatedDeliveryDate: string)

  datatype Order = Order(details: OrderDetails, paymentStatus: string, orderStatus: string, note: string)

  datatype OrderItem = OrderItem(orderId: int, productId: int, quantity: int)

  /** A `shipping_address` row; `isDefault` None leaves the column default. */
  datatype Address = Address(
    customerId: int, receiverName: Value, receiverPhone: string, country: string,
    city: string, provinceState: string, postalCode: string, isDefault: Option<bool>)

  datatype Tables = Tables(orders: map<int, Order>, items: seq<OrderItem>, addresses: map<int, Address>)

  /** One data-changing SQL statement. */
  datatype Write =
    | InsertOrder(orderId: int, order: Order)
    | InsertItem(item: OrderItem)
    | DeleteItemsOf(orderId: int)
    | DeleteOrderRow(orderId: int)
    | InsertAddress(addressId: int, address: Address)
    | SetShippingAddress(orderId: int, addressId: int)

  /** `DELETE FROM order_item WHERE order_id = id`: the other rows, in order. */
  function ItemsNotOf(items: seq<OrderItem>, orderId: int): (r: seq<OrderItem>)
    ensures forall it <- r :: it.orderId != orderId
    ensures forall it: OrderItem :: it.orderId != orderId ==> multiset(r)[it] == multiset(items)[it]
  {
    if items == [] then []
    else
      assert items == [items[0]] + items[1..];
      if items[0].orderId == orderId then ItemsNotOf(items[1..], orderId)
      else [items[0]] + ItemsNotOf(items[1..], orderId)
  }

  function Apply(t: Tables, w: Write): Tables {
    match w
    case InsertOrder(id, o) => t.(orders := t.orders[id := o])
    case InsertItem(it) => t.(items := t.items + [it])
    case DeleteItemsOf(id) => t.(items := ItemsNotOf(t.items, id))
    case DeleteOrderRow(id) => t.(orders := t.orders - {id})
    case InsertAddress(aid, a) => t.(addresses := t.addresses[aid := a])
    case SetShippingAddress(id, aid) =>
      if id in t.orders then
        t.(orders := t.orders[id := t.orders[id].(details := t.orders[id].details.(shippingAddressId := aid))])
      else t
  }

  /** The tables after a sequence of writes, in order. */
  function ApplyAll(t: Tables, ws: seq<Write>): Tables
    decreases |ws|
  {
    if ws == [] then t else Apply(ApplyAll(t, ws[..|ws| - 1]), ws[|ws| - 1])
  }

  lemma ApplyAllSnoc(t: Tables, ws: seq<Write>, w: Write)
    ensures ApplyAll(t, ws + [w]) == Apply(ApplyAll(t, ws), w)
  {
    assert (ws + [w])[..|ws|] == ws;
  }

  /** The header row `place_order` inserts. */
  function NewOrder(details: OrderDetails, sessionId: string): Order {
    Order(details, PendingStatus, PendingStatus, "Order placed via chatbot (session: " + sessionId + ")")
  }

  /** One `order_item` row per cart line, tagged with the order id. */
  function ItemRows(orderId: int, lines: seq<(int, int)>): (r: seq<OrderItem>)
    ensures |r| == |lines|
    ensures forall k :: 0 <= k < |lines| ==> r[k] == OrderItem(orderId, lines[k].0, lines[k].1)
    decreases |lines|
  {
    if lines == [] then []
    else ItemRows(orderId, lines[..|lines| - 1]) + [OrderItem(orderId, lines[|lines| - 1].0, lines[|lines| - 1].1)]
  }

  /** The statements `place_order` issues: the header, then the items in order. */
  function PlaceWrites(orderId: int, order: Order, lines: seq<(int, int)>): (ws: seq<Write>)
    decreases |lines|
  {
    if lines == [] then [InsertOrder(orderId, order)]
    else PlaceWrites(orderId, order, lines[..|lines| - 1])
           + [InsertItem(OrderItem(orderId, lines[|lines| - 1].0, lines[|lines| - 1].1))]
  }

  /** The tables with one placed order and its items. */
  function Placed(t: Tables, orderId: int, order: Order, lines: seq<(int, int)>): Tables {
    Tables(t.orders[orderId := order], t.items + ItemRows(orderId, lines), t.addresses)
  }

  /** Issuing the statements of `place_order` places the order. */
  lemma {:induction false} PlaceWritesApply(t: Tables, orderId: int, order: Order, lines: seq<(int, int)>)
    ensures |PlaceWrites(orderId, order, lines)| == |lines| + 1
    ensures ApplyAll(t, PlaceWrites(orderId, order, lines)) == Placed(t, orderId, order, lines)
  {
    if lines == [] {
      assert ApplyAll(t, [InsertOrder(orderId, order)]) == Apply(t, InsertOrder(orderId, order));
      assert t.items + [] == t.items;
    } else {
      var init := lines[..|lines| - 1];
      var last := lines[|lines| - 1];
      PlaceWritesApply(t, orderId, order, init);
      ApplyAllSnoc(t, PlaceWrites(orderId, order, init), InsertItem(OrderItem(orderId, last.0, last.1)));
      assert t.items + ItemRows(orderId, lines)
          == (t.items + ItemRows(orderId, init)) + [OrderItem(orderId, last.0, last.1)];
    }
  }

  /** `delete_order` may act: the order exists with status 'Processing'. */
  predicate Deletable(t: Tables, orderId: int) {
    orderId in t.orders && t.orders[orderId].orderStatus == Processing
  }

  /** The tables without an order and its items. */
  function WithoutOrder(t: Tables, orderId: int): (r: Tables)
    ensures orderId !in r.orders && forall it <- r.items :: it.orderId != orderId
    ensures r.orders.Keys == t.orders.Keys - {orderId}
    ensures forall id :: id != orderId && id in t.orders ==> r.orders[id] == t.orders[id]
    ensures forall it: OrderItem :: it.orderId != orderId ==> multiset(r.items)[it] == multiset(t.items)[it]
    ensures r.addresses == t.addresses
  {
    Tables(t.orders - {orderId}, ItemsNotOf(t.items, orderId), t.addresses)
  }

  lemma DeleteWritesApply(t: Tables, orderId: int)
    ensures ApplyAll(t, [DeleteItemsOf(orderId), DeleteOrderRow(orderId)]) == WithoutOrder(t, orderId)
  {
    ApplyAllSnoc(t, [], DeleteItemsOf(orderId));
    ApplyAllSnoc(t, [DeleteItemsOf(orderId)], DeleteOrderRow(orderId));
    var u := Apply(t, DeleteItemsOf(orderId));
    assert Apply(u, DeleteOrderRow(orderId)) == WithoutOrder(t, orderId);
  }

  /** `update_shipping_address` may act: the order exists, belongs to the
      customer and has status 'Processing'. */
  predicate Readdressable(t: Tables, orderId: int, customerId: int) {
    && orderId in t.orders
    && t.orders[orderId].details.customerId == customerId
    && t.orders[orderId].orderStatus == Processing
  }

  /** The tables with a new address and the order pointing at it. */
  function Readdressed(t: Tables, orderId: int, addressId: int, a: Address): (r: Tables)
    requires orderId in t.orders
    ensures r.addresses == t.addresses[addressId := a]
    ensures r.items == t.items && r.orders.Keys == t.orders.Keys
    ensures r.orders[orderId].details.shippingAddressId == addressId
    ensures r.orders[orderId].details.(shippingAddressId := t.orders[orderId].details.shippingAddressId)
         == t.orders[orderId].details
    ensures r.orders[orderId].(details := t.orders[orderId].details) == t.orders[orderId]
    ensures forall id :: id in t.orders && id != orderId ==> r.orders[id] == t.orders[id]
  {
    var o := t.orders[orderId];
    Tables(t.orders[orderId := o.(details := o.details.(shippingAddressId := addressId))],
           t.items, t.addresses[addressId := a])
  }

  lemma ReaddressWritesApply(t: Tables, orderId: int, addressId: int, a: Address)
    requires orderId in t.orders
    ensures ApplyAll(t, [InsertAddress(addressId, a), SetShippingAddress(orderId, addressId)])
         == Readdressed(t, orderId, addressId, a)
  {
    ApplyAllSnoc(t, [], InsertAddress(addressId, a));
    ApplyAllSnoc(t, [InsertAddress(addressId, a)], SetShippingAddress(orderId, addressId));
    var u := Apply(t, InsertAddress(addressId, a));
    assert u.orders == t.orders;
  }

  /** A freshly placed order has status 'pending', so neither `delete_order`
      nor `update_shipping_address` will touch it. */
  lemma PlacedOrderIsNotProcessing(t: Tables, orderId: int, details: OrderDetails, sessionId: string,
                                   lines: seq<(int, int)>, customerId: int)
    ensures var t' := Placed(t, orderId, NewOrder(details, sessionId), lines);
      !Deletable(t', orderId) && !Readdressable(t', orderId, customerId)
  {
  }

  /** Statement number `k` or an earlier one raises. */
  predicate FailsBy(failAt: Option<nat>, k: nat) {
    failAt.Some? && failAt.value <= k
  }

  class Store {
    /** The committed tables. */
    var committed: Tables
    /** The writes of the open transaction, not yet committed. */
    var pending: seq<Write>
    /** The serial counters behind `RETURNING order_id` and
        `RETURNING address_id`; a rollback does not give numbers back. */
    var nextOrderId: int
    var nextAddressId: int
    /** Every committed write, in order. */
    ghost var log: seq<Write>

    /** Between calls no transaction is open, and ids to come are fresh. */
    ghost predicate Valid()
      reads this
    {
      && pending == []
      && (forall id :: id in committed.orders ==> id < nextOrderId)
      && (forall id :: id in committed.addresses ==> id < nextAddressId)
    }

    /** What a statement inside the open transaction sees. */
    function View(): Tables
      reads this
    {
      ApplyAll(committed, pending)
    }

    constructor (initial: Tables, nextOrder: int, nextAddress: int)
      requires forall id :: id in initial.orders ==> id < nextOrder
      requires forall id :: id in initial.addresses ==> id < nextAddress
      ensures Valid() && committed == initial && log == []
      ensures nextOrderId == nextOrder && nextAddressId == nextAddress
    {
      committed := initial;
      pending := [];
      nextOrderId := nextOrder;
      nextAddressId := nextAddress;
      log := [];
    }

    /** `cursor.execute` of a data-changing statement that succeeds. */
    method Execute(w: Write)
      modifies this`pending
      ensures pending == old(pending) + [w]
    {
      pending := pending + [w];
    }

    /** `cnx.commit()`. */
    method Commit()
      modifies this`committed, this`pending, this`log
      ensures committed == ApplyAll(old(committed), old(pending))
      ensures pending == [] && log == old(log) + old(pending)
    {
      committed := ApplyAll(committed, pending);
      log := log + pending;
      pending := [];
    }

    /** `cnx.rollback()`. */
    method Rollback()
      modifies this`pending
      ensures pending == []
    {
      pending := [];
    }

    /** `SELECT COUNT(*) FROM "Order" WHERE order_id = .. [AND customer_id = ..]
        AND order_status = 'Processing'`. */
    method CountProcessing(orderId: int, customerId: Option<int>) returns (count: nat)
      ensures count <= 1
      ensures count == 1 <==>
        && orderId in View().orders
        && View().orders[orderId].orderStatus == Processing
        && (customerId.Some? ==> View().orders[orderId].details.customerId == customerId.value)
    {
      var t := View();
      if orderId in t.orders && t.orders[orderId].orderStatus == Processing
         && (customerId.None? || t.orders[orderId].details.customerId == customerId.value) {
        count := 1;
      } else {
        count := 0;
      }
    }

    /** `place_order` (db_helper.py:318-362). Statements: 0 the header,
        1..|lines| the items, |lines| + 1 the commit. */
    method PlaceOrder(details: OrderDetails, lines: seq<(int, int)>, sessionId: string, failAt: Option<nat>)
      returns (r: Option<int>)
      requires Valid()
      modifies this
      ensures Valid()
      ensures r.Some? <==> !FailsBy(failAt, |lines| + 1)
      ensures r.Some? ==> r.value == old(nextOrderId) && r.value !in old(committed.orders)
      ensures r.Some? ==> log == old(log) + PlaceWrites(r.value, NewOrder(details, sessionId), lines)
      ensures r.Some? ==> committed == Placed(old(committed), r.value, NewOrder(details, sessionId), lines)
      ensures r.None? ==> committed == old(committed) && log == old(log)
      ensures nextOrderId >= old(nextOrderId) && nextAddressId == old(nextAddressId)
    {
      if failAt == Some(0) {
        Rollback();
        return None;
      }
      var orderId := nextOrderId;
      nextOrderId := nextOrderId + 1;
      var order := NewOrder(details, sessionId);
      Execute(InsertOrder(orderId, order));
      var i := 0;
      while i < |lines|
        invariant 0 <= i <= |lines|
        invariant pending == PlaceWrites(orderId, order, lines[..i])
        invariant committed == old(committed) && log == old(log)
        invariant nextOrderId == orderId + 1 && nextAddressId == old(nextAddressId)
        invariant !FailsBy(failAt, i)
      {
        if failAt == Some(i + 1) {
          Rollback();
          return None;
        }
        Execute(InsertItem(OrderItem(orderId, lines[i].0, lines[i].1)));
        assert lines[..i + 1][..i] == lines[..i];
        i := i + 1;
      }
      assert lines[..i] == lines;
      if failAt == Some(|lines| + 1) {
        Rollback();
        return None;
      }
      PlaceWritesApply(committed, orderId, order, lines);
      Commit();
      r := Some(orderId);
    }

    /** `delete_order` (db_helper.py:441-482). Statements: 0 the count,
        1 the items, 2 the header, 3 the commit. */
    method DeleteOrder(orderId: int, failAt: Option<nat>) returns (ok: bool)
      requires Valid()
      modifies this
      ensures Valid()
      ensures ok <==> Deletable(old(committed), orderId) && !FailsBy(failAt, 3)
      ensures ok ==> log == old(log) + [DeleteItemsOf(orderId), DeleteOrderRow(orderId)]
      ensures ok ==> committed == WithoutOrder(old(committed), orderId)
      ensures !ok ==> committed == old(committed) && log == old(log)
      ensures nextOrderId == old(nextOrderId) && nextAddressId == old(nextAddressId)
    {
      if failAt == Some(0) {
        Rollback();
        return false;
      }
      var count := CountProcessing(orderId, None);
      if count == 0 {
        return false;
      }
      if failAt == Some(1) {
        Rollback();
        return false;
      }
      Execute(DeleteItemsOf(orderId));
      if failAt == Some(2) {
        Rollback();
        return false;
      }
      Execute(DeleteOrderRow(orderId));
      if failAt == Some(3) {
        Rollback();
        return false;
      }
      DeleteWritesApply(committed, orderId);
      Commit();
      ok := true;
    }

    /** `update_shipping_address` (db_helper.py:484-565). Statements: 0 the
        count, 1 the new address, 2 the order update, 3 the commit. */
    method UpdateShippingAddress(orderId: int, customerId: int, receiverName: Value, receiverPhone: string,
                                 country: string, city: string, provinceState: string, postalCode: string,
                                 failAt: Option<nat>) returns (ok: bool)
      requires Valid()
      modifies this
      ensures Valid()
      ensures ok <==> Readdressable(old(committed), orderId, customerId) && !FailsBy(failAt, 3)
      ensures ok ==>
        var a := Address(customerId, NormaliseReceiverName(receiverName), receiverPhone, country,
                         city, provinceState, postalCode, None);
        && log == old(log) + [InsertAddress(old(nextAddressId), a), SetShippingAddress(orderId, old(nextAddressId))]
        && committed == Readdressed(old(committed), orderId, old(nextAddressId), a)
      ensures !ok ==> committed == old(committed) && log == old(log)
      ensures nextOrderId == old(nextOrderId) && nextAddressId >= old(nextAddressId)
    {
      var name := NormaliseReceiverName(receiverName);
      if failAt == Some(0) {
        Rollback();
        return false;
      }
      var count := CountProcessing(orderId, Some(customerId));
      if count == 0 {
        return false;
      }
      if failAt == Some(1) {
        Rollback();
        return false;
      }
      var addressId := nextAddressId;
      nextAddressId := nextAddressId + 1;
      var a := Address(customerId, name, receiverPhone, country, city, provinceState, postalCode, None);
      Execute(InsertAddress(addressId, a));
      if failAt == Some(2) {
        Rollback();
        return false;
      }
      Execute(SetShippingAddress(orderId, addressId));
      if failAt == Some(3) {
        Rollback();
        return false;
      }
      ReaddressWritesApply(committed, orderId, addressId, a);
      Commit();
      ok := true;
    }

    /** `save_new_shipping_address` (db_helper.py:275-292). Statements: 0 the
        insert, 1 the commit. No guard. */
    method SaveNewShippingAddress(customerId: int, receiverName: Value, receiverPhone: string, country: string,
                                  city: string, provinceState: string, postalCode: string, isDefault: bool,
                                  failAt: Option<nat>) returns (r: Option<int>)
      requires Valid()
      modifies this
      ensures Valid()
      ensures r.Some? <==> !FailsBy(failAt, 1)
      ensures r.Some? ==>
        var a := Address(customerId, receiverName, receiverPhone, country, city, provinceState, postalCode, Some(isDefault));
        && r.value == old(nextAddressId) && r.value !in old(committed.addresses)
        && log == old(log) + [InsertAddress(r.value, a)]
        && committed == old(committed).(addresses := old(committed.addresses)[r.value := a])
      ensures r.None? ==> committed == old(committed) && log == old(log)
      ensures nextOrderId == old(nextOrderId) && nextAddressId >= old(nextAddressId)
    {
      if failAt == Some(0) {
        Rollback();
        return None;
      }
      var addressId := nextAddressId;
      nextAddressId := nextAddressId + 1;
      var a := Address(customerId, receiverName, receiverPhone, country, city, provinceState, postalCode, Some(isDefault));
      Execute(InsertAddress(addressId, a));
      if failAt == Some(1) {
        Rollback();
        return None;
      }
      assert ApplyAll(committed, [InsertAddress(addressId, a)]) == Apply(committed, InsertAddress(addressId, a));
      Commit();
      r := Some(addressId);
    }
  }
}
