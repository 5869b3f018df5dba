/** The three-level nesting test (tests/test_psycopg2.py): customers 1, 2 and
    3, each with three orders, each order with one or two items. Integer
    values pass through the adapter cache unconverted, and each nested level
    becomes a cursor with the context's `arraysize` over its own rows. The
    three top-level rows are decoded one after the other against the one
    shared cache, as `_filter_row` decodes the rows of a result set. */
module DecoderFixture {
  import opened Json
  import opened FieldSchema
  import opened AdapterCache
  import opened RowDecoder

  /** The oid of INTEGER, as the engine reports it. */
  const Int4 := JNum(23)
  /** The cache once one integer has been seen. */
  const Warm: Cache := map[Int4 := None]

  const ItemFields := [Field(None, JStr("item_id"), 0, None, -1, -1, Int4, NoNested)]
  const OrderFields := [Field(None, JStr("order_id"), 0, None, -1, -1, Int4, NoNested),
                        Field(None, JStr("i1"), 1, None, -1, -1, JNum(NestedOid), Nested(ItemFields))]
  const CustomerFields := [Field(None, JStr("customer_id"), 0, None, -1, -1, Int4, NoNested),
                           Field(None, JStr("o1"), 1, None, -1, -1, JNum(NestedOid), Nested(OrderFields))]

  function ItemDoc(id: int): Json {
    JObject(map["item_id" := JNum(id)])
  }

  function OrderDoc(id: int, items: seq<Json>): Json {
    JObject(map["order_id" := JNum(id), "i1" := JArray(items)])
  }

  function CustomerDoc(id: int, orders: seq<Json>): Json {
    JObject(map["customer_id" := JNum(id), "o1" := JArray(orders)])
  }

  function ItemRow(id: int): Row {
    [Scalar(Raw(JNum(id)))]
  }

  function OrderRow(arraysize: nat, id: int, items: seq<Row>): Row {
    [Scalar(Raw(JNum(id))), Cursor(arraysize, ItemFields, items)]
  }

  function CustomerRow(arraysize: nat, id: int, orders: seq<Row>): Row {
    [Scalar(Raw(JNum(id))), Cursor(arraysize, OrderFields, orders)]
  }

  lemma ItemFixture(drv: Driver, arraysize: nat, id: int)
    ensures RowOf(drv, arraysize, Warm, ItemDoc(id), ItemFields) == Outcome(Ok(ItemRow(id)), Warm)
  {
    assert ItemFields[..0] == [];
    assert Subscript(ItemDoc(id), JStr("item_id")) == Ok(JNum(id));
    assert CellOf(drv, arraysize, Warm, ItemDoc(id), ItemFields[0]) == Outcome(Ok(Scalar(Raw(JNum(id)))), Warm);
    assert [] + [Scalar(Raw(JNum(id)))] == ItemRow(id);
  }

  lemma OneItemFixture(drv: Driver, arraysize: nat, id: int)
    ensures RowsetOf(drv, arraysize, Warm, [ItemDoc(id)], ItemFields) == Outcome(Ok([ItemRow(id)]), Warm)
  {
    ItemFixture(drv, arraysize, id);
    assert [ItemDoc(id)][..0] == [];
    assert [] + [ItemRow(id)] == [ItemRow(id)];
  }

  lemma TwoItemsFixture(drv: Driver, arraysize: nat, a: int, b: int)
    ensures RowsetOf(drv, arraysize, Warm, [ItemDoc(a), ItemDoc(b)], ItemFields)
         == Outcome(Ok([ItemRow(a), ItemRow(b)]), Warm)
  {
    var docs := [ItemDoc(a), ItemDoc(b)];
    OneItemFixture(drv, arraysize, a);
    ItemFixture(drv, arraysize, b);
    assert docs[..1] == [ItemDoc(a)];
    assert [ItemRow(a)] + [ItemRow(b)] == [ItemRow(a), ItemRow(b)];
  }

  /** An order decodes to its id and a cursor over its decoded items. */
  lemma OrderFixture(drv: Driver, arraysize: nat, id: int, items: seq<Json>, rows: seq<Row>)
    requires RowsetOf(drv, arraysize, Warm, items, ItemFields) == Outcome(Ok(rows), Warm)
    ensures RowOf(drv, arraysize, Warm, OrderDoc(id, items), OrderFields) == Outcome(Ok(OrderRow(arraysize, id, rows)), Warm)
  {
    var doc := OrderDoc(id, items);
    assert OrderFields[..1] == [OrderFields[0]] && OrderFields[..1][..0] == [];
    assert Subscript(doc, JStr("order_id")) == Ok(JNum(id));
    assert Subscript(doc, JStr("i1")) == Ok(JArray(items));
    assert CellOf(drv, arraysize, Warm, doc, OrderFields[0]) == Outcome(Ok(Scalar(Raw(JNum(id)))), Warm);
    assert [] + [Scalar(Raw(JNum(id)))] == [Scalar(Raw(JNum(id)))];
    assert RowOf(drv, arraysize, Warm, doc, OrderFields[..1]) == Outcome(Ok([Scalar(Raw(JNum(id)))]), Warm);
    assert CellOf(drv, arraysize, Warm, doc, OrderFields[1]) == Outcome(Ok(Cursor(arraysize, ItemFields, rows)), Warm);
    assert [Scalar(Raw(JNum(id)))] + [Cursor(arraysize, ItemFields, rows)] == OrderRow(arraysize, id, rows);
  }

  /** Three decoded orders make a rowset of three rows, in order. */
  lemma ThreeOrdersFixture(drv: Driver, arraysize: nat, o1: Json, o2: Json, o3: Json, r1: Row, r2: Row, r3: Row)
    requires RowOf(drv, arraysize, Warm, o1, OrderFields) == Outcome(Ok(r1), Warm)
    requires RowOf(drv, arraysize, Warm, o2, OrderFields) == Outcome(Ok(r2), Warm)
    requires RowOf(drv, arraysize, Warm, o3, OrderFields) == Outcome(Ok(r3), Warm)
    ensures RowsetOf(drv, arraysize, Warm, [o1, o2, o3], OrderFields) == Outcome(Ok([r1, r2, r3]), Warm)
  {
    var docs := [o1, o2, o3];
    assert docs[..2] == [o1, o2] && docs[..2][..1] == [o1] && docs[..2][..1][..0] == [];
    assert [] + [r1] == [r1] && [r1] + [r2] == [r1, r2] && [r1, r2] + [r3] == [r1, r2, r3];
    assert RowsetOf(drv, arraysize, Warm, [o1], OrderFields) == Outcome(Ok([r1]), Warm);
    assert RowsetOf(drv, arraysize, Warm, [o1, o2], OrderFields) == Outcome(Ok([r1, r2]), Warm);
  }

  /** A customer decodes to its id and a cursor over its decoded orders, from
      an empty cache or from the warm one; either way the cache ends warm. */
  lemma CustomerFixture(drv: Driver, arraysize: nat, cache: Cache, id: int, orders: seq<Json>, rows: seq<Row>)
    requires cache == map[] || cache == Warm
    requires RowsetOf(drv, arraysize, Warm, orders, OrderFields) == Outcome(Ok(rows), Warm)
    ensures RowOf(drv, arraysize, cache, CustomerDoc(id, orders), CustomerFields)
         == Outcome(Ok(CustomerRow(arraysize, id, rows)), Warm)
  {
    var doc := CustomerDoc(id, orders);
    assert CustomerFields[..1] == [CustomerFields[0]] && CustomerFields[..1][..0] == [];
    assert Subscript(doc, JStr("customer_id")) == Ok(JNum(id));
    assert Subscript(doc, JStr("o1")) == Ok(JArray(orders));
    assert CastOf(drv, cache, JNum(id), Int4) == Outcome(Ok(Raw(JNum(id))), Warm);
    assert CellOf(drv, arraysize, cache, doc, CustomerFields[0]) == Outcome(Ok(Scalar(Raw(JNum(id)))), Warm);
    assert [] + [Scalar(Raw(JNum(id)))] == [Scalar(Raw(JNum(id)))];
    assert RowOf(drv, arraysize, cache, doc, CustomerFields[..1]) == Outcome(Ok([Scalar(Raw(JNum(id)))]), Warm);
    assert CellOf(drv, arraysize, Warm, doc, CustomerFields[1]) == Outcome(Ok(Cursor(arraysize, OrderFields, rows)), Warm);
    assert [Scalar(Raw(JNum(id)))] + [Cursor(arraysize, OrderFields, rows)] == CustomerRow(arraysize, id, rows);
  }

  /** The expected result of the test: the three customers, the first decoded
      from an empty cache and the others against the cache it left. */
  lemma MultipleNestFixture(drv: Driver, arraysize: nat)
    ensures RowOf(drv, arraysize, map[], CustomerDoc(1, [
                OrderDoc(101, [ItemDoc(1001), ItemDoc(1002)]),
                OrderDoc(102, [ItemDoc(1003)]),
                OrderDoc(103, [ItemDoc(1004)])]), CustomerFields)
         == Outcome(Ok(CustomerRow(arraysize, 1, [
                OrderRow(arraysize, 101, [ItemRow(1001), ItemRow(1002)]),
                OrderRow(arraysize, 102, [ItemRow(1003)]),
                OrderRow(arraysize, 103, [ItemRow(1004)])])), Warm)
    ensures RowOf(drv, arraysize, Warm, CustomerDoc(2, [
                OrderDoc(104, [ItemDoc(1005)]),
                OrderDoc(105, [ItemDoc(1006)]),
                OrderDoc(106, [ItemDoc(1007)])]), CustomerFields)
         == Outcome(Ok(CustomerRow(arraysize, 2, [
                OrderRow(arraysize, 104, [ItemRow(1005)]),
                OrderRow(arraysize, 105, [ItemRow(1006)]),
                OrderRow(arraysize, 106, [ItemRow(1007)])])), Warm)
    ensures RowOf(drv, arraysize, Warm, CustomerDoc(3, [
                OrderDoc(107, [ItemDoc(1008), ItemDoc(1009)]),
                OrderDoc(108, [ItemDoc(1010)]),
                OrderDoc(109, [ItemDoc(1011)])]), CustomerFields)
         == Outcome(Ok(CustomerRow(arraysize, 3, [
                OrderRow(arraysize, 107, [ItemRow(1008), ItemRow(1009)]),
                OrderRow(arraysize, 108, [ItemRow(1010)]),
                OrderRow(arraysize, 109, [ItemRow(1011)])])), Warm)
  {
    TwoItemsFixture(drv, arraysize, 1001, 1002);
    OrderFixture(drv, arraysize, 101, [ItemDoc(1001), ItemDoc(1002)], [ItemRow(1001), ItemRow(1002)]);
    SingleItemOrder(drv, arraysize, 102, 1003);
    SingleItemOrder(drv, arraysize, 103, 1004);
    ThreeOrdersFixture(drv, arraysize,
      OrderDoc(101, [ItemDoc(1001), ItemDoc(1002)]), OrderDoc(102, [ItemDoc(1003)]), OrderDoc(103, [ItemDoc(1004)]),
      OrderRow(arraysize, 101, [ItemRow(1001), ItemRow(1002)]), OrderRow(arraysize, 102, [ItemRow(1003)]), OrderRow(arraysize, 103, [ItemRow(1004)]));
    CustomerFixture(drv, arraysize, map[], 1,
      [OrderDoc(101, [ItemDoc(1001), ItemDoc(1002)]), OrderDoc(102, [ItemDoc(1003)]), OrderDoc(103, [ItemDoc(1004)])],
      [OrderRow(arraysize, 101, [ItemRow(1001), ItemRow(1002)]), OrderRow(arraysize, 102, [ItemRow(1003)]), OrderRow(arraysize, 103, [ItemRow(1004)])]);

    SingleItemOrder(drv, arraysize, 104, 1005);
    SingleItemOrder(drv, arraysize, 105, 1006);
    SingleItemOrder(drv, arraysize, 106, 1007);
    ThreeOrdersFixture(drv, arraysize,
      OrderDoc(104, [ItemDoc(1005)]), OrderDoc(105, [ItemDoc(1006)]), OrderDoc(106, [ItemDoc(1007)]),
      OrderRow(arraysize, 104, [ItemRow(1005)]), OrderRow(arraysize, 105, [ItemRow(1006)]), OrderRow(arraysize, 106, [ItemRow(1007)]));
    CustomerFixture(drv, arraysize, Warm, 2,
      [OrderDoc(104, [ItemDoc(1005)]), OrderDoc(105, [ItemDoc(1006)]), OrderDoc(106, [ItemDoc(1007)])],
      [OrderRow(arraysize, 104, [ItemRow(1005)]), OrderRow(arraysize, 105, [ItemRow(1006)]), OrderRow(arraysize, 106, [ItemRow(1007)])]);

    TwoItemsFixture(drv, arraysize, 1008, 1009);
    OrderFixture(drv, arraysize, 107, [ItemDoc(1008), ItemDoc(1009)], [ItemRow(1008), ItemRow(1009)]);
    SingleItemOrder(drv, arraysize, 108, 1010);
    SingleItemOrder(drv, arraysize, 109, 1011);
    ThreeOrdersFixture(drv, arraysize,
      OrderDoc(107, [ItemDoc(1008), ItemDoc(1009)]), OrderDoc(108, [ItemDoc(1010)]), OrderDoc(109, [ItemDoc(1011)]),
      OrderRow(arraysize, 107, [ItemRow(1008), ItemRow(1009)]), OrderRow(arraysize, 108, [ItemRow(1010)]), OrderRow(arraysize, 109, [ItemRow(1011)]));
    CustomerFixture(drv, arraysize, Warm, 3,
      [OrderDoc(107, [ItemDoc(1008), ItemDoc(1009)]), OrderDoc(108, [ItemDoc(1010)]), OrderDoc(109, [ItemDoc(1011)])],
      [OrderRow(arraysize, 107, [ItemRow(1008), ItemRow(1009)]), OrderRow(arraysize, 108, [ItemRow(1010)]), OrderRow(arraysize, 109, [ItemRow(1011)])]);
  }

  /** An order with a single item. */
  lemma SingleItemOrder(drv: Driver, arraysize: nat, id: int, item: int)
    ensures RowOf(drv, arraysize, Warm, OrderDoc(id, [ItemDoc(item)]), OrderFields)
         == Outcome(Ok(OrderRow(arraysize, id, [ItemRow(item)])), Warm)
  {
    OneItemFixture(drv, arraysize, item);
    OrderFixture(drv, arraysize, id, [ItemDoc(item)], [ItemRow(item)]);
  }
}
