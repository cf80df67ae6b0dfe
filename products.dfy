/** The catalog API of api/products.ts: each call awaits `connect` on the
    shared database and then issues one `query`. The SQL texts are kept
    verbatim (written in pieces that concatenate to the source's template
    literals) because `query` routes on substrings of them. */
module Products {
  import opened Common
  import opened MockDatabase

  // The models query, split around its one routing keyword.
  const ModelsSqlHead := "\n      SELECT id, model_name, category \n      FROM "
  const ModelsSqlTail := " \n      WHERE category = $1\n      ORDER BY model_name ASC\n    "
  const ModelsSql := ModelsSqlHead + "models" + ModelsSqlTail

  /** What `getVendorsByModel` actually passes to `query` (its own SQL text,
      with the JOIN and the ORDER BY, is built and then not used). */
  const VendorsSqlSent := "vendors"

  // The INSERT of `placeOrder`, split after whitespace so that each piece is short.
  const InsertSql0 := "\n      INSERT INTO orders (\n"
  const InsertSql1 := "        customer_id, \n"
  const InsertSql2 := "        model_id, \n"
  const InsertSql3 := "        product_id, \n"
  const InsertSql4 := "        vendor_id,\n"
  const InsertSql5 := "        quantity, \n"
  const InsertSql6 := "        total_price, \n"
  const InsertSql7 := "        order_date\n"
  const InsertSql8 := "      )\n      VALUES ($1, $2, $3, "
  const InsertSql9 := "$4, $5, $6, NOW())\n"
  const InsertSql10 := "      RETURNING id\n    "
  const InsertSql := InsertSql0 + (InsertSql1 + (InsertSql2 + (InsertSql3 + (InsertSql4 + (InsertSql5
                     + (InsertSql6 + (InsertSql7 + (InsertSql8 + (InsertSql9 + InsertSql10)))))))))

  /** The fields of the `orderData` argument of `placeOrder` that it reads. */
  datatype OrderData = OrderData(customerId: Value, modelId: Value, productId: Value,
                                 vendorId: Value, quantity: Value, totalPrice: Value)

  /** The parameter array of the INSERT: a falsy customer id becomes `null`,
      the other five fields are passed in column order, unchanged. */
  function PlaceOrderParams(order: OrderData): (params: seq<Value>)
    ensures |params| == 6
    ensures params[0] == (if Truthy(order.customerId) then order.customerId else Null)
    ensures params[1..] == [order.modelId, order.productId, order.vendorId, order.quantity, order.totalPrice]
  {
    [OrElse(order.customerId, Null), order.modelId, order.productId, order.vendorId,
     order.quantity, order.totalPrice]
  }

  /** The `id` property of a row; an offer is a product row spread with a
      vendor, so its `id` is the product's. */
  function RowId(r: Row): int {
    match r
    case ModelRow(m) => m.id
    case ProductRow(p) => p.id
    case OfferRow(o) => o.product.id
  }

  /** `result[0]?.id` */
  function FirstRowId(rows: seq<Row>): (id: Value)
    ensures rows == [] ==> id == Undefined
    ensures rows != [] ==> id == Num(RowId(rows[0]))
  {
    if rows == [] then Undefined else Num(RowId(rows[0]))
  }

  lemma ModelsSqlRoutesToModels()
    ensures Route(ModelsSql) == ModelsBranch
  {
    ContainsMiddle(ModelsSqlHead, "models", ModelsSqlTail);
  }

  lemma VendorsSqlRoutesToVendors()
    ensures Route(VendorsSqlSent) == VendorsBranch
  {
    AbsentByMissingChar(VendorsSqlSent, "models", 'm');
    TooLongNotContained(VendorsSqlSent, "products");
    TooLongNotContained(VendorsSqlSent, "JOIN vendors");
    ContainsItself(VendorsSqlSent);
  }

  // Each piece of the INSERT lacks some character of each routing keyword;
  // one small lemma per piece keeps every proof obligation cheap.
  lemma InsertPieceFacts0() ensures 'm' !in InsertSql0 && 'v' !in InsertSql0 && 'p' !in InsertSql0 {}
  lemma InsertPieceFacts1() ensures 'l' !in InsertSql1 && 'v' !in InsertSql1 && 'p' !in InsertSql1 {}
  lemma InsertPieceFacts2() ensures 's' !in InsertSql2 && 'v' !in InsertSql2 && 'p' !in InsertSql2 {}
  lemma InsertPieceFacts3() ensures 'm' !in InsertSql3 && 'v' !in InsertSql3 && 's' !in InsertSql3 {}
  lemma InsertPieceFacts4() ensures 'm' !in InsertSql4 && 's' !in InsertSql4 && 'p' !in InsertSql4 {}
  lemma InsertPieceFacts5() ensures 'm' !in InsertSql5 && 'v' !in InsertSql5 && 'p' !in InsertSql5 {}
  lemma InsertPieceFacts6() ensures 'm' !in InsertSql6 && 'v' !in InsertSql6 && 'u' !in InsertSql6 {}
  lemma InsertPieceFacts7() ensures 'm' !in InsertSql7 && 'v' !in InsertSql7 && 'p' !in InsertSql7 {}
  lemma InsertPieceFacts8() ensures 'm' !in InsertSql8 && 'v' !in InsertSql8 && 'p' !in InsertSql8 {}
  lemma InsertPieceFacts9() ensures 'm' !in InsertSql9 && 'v' !in InsertSql9 && 'p' !in InsertSql9 {}
  lemma InsertPieceFacts10() ensures 'm' !in InsertSql10 && 'v' !in InsertSql10 && 'p' !in InsertSql10 {}

  /** A keyword without whitespace that needs, for every piece, some character
      that piece lacks, does not occur in the INSERT text. */
  lemma InsertSqlLacks(p: string, c0: char, c1: char, c2: char, c3: char, c4: char, c5: char,
                       c6: char, c7: char, c8: char, c9: char, c10: char)
    requires NoWs(p)
    requires c0 in p && c0 !in InsertSql0 && c1 in p && c1 !in InsertSql1
    requires c2 in p && c2 !in InsertSql2 && c3 in p && c3 !in InsertSql3
    requires c4 in p && c4 !in InsertSql4 && c5 in p && c5 !in InsertSql5
    requires c6 in p && c6 !in InsertSql6 && c7 in p && c7 !in InsertSql7
    requires c8 in p && c8 !in InsertSql8 && c9 in p && c9 !in InsertSql9
    requires c10 in p && c10 !in InsertSql10
    ensures !Contains(InsertSql, p)
  {
    var s9 := InsertSql9 + InsertSql10;
    var s8 := InsertSql8 + s9;
    var s7 := InsertSql7 + s8;
    var s6 := InsertSql6 + s7;
    var s5 := InsertSql5 + s6;
    var s4 := InsertSql4 + s5;
    var s3 := InsertSql3 + s4;
    var s2 := InsertSql2 + s3;
    var s1 := InsertSql1 + s2;
    AbsentByMissingChar(InsertSql10, p, c10);
    AbsentAcrossWs(InsertSql9, InsertSql10, p, c9);
    AbsentAcrossWs(InsertSql8, s9, p, c8);
    AbsentAcrossWs(InsertSql7, s8, p, c7);
    AbsentAcrossWs(InsertSql6, s7, p, c6);
    AbsentAcrossWs(InsertSql5, s6, p, c5);
    AbsentAcrossWs(InsertSql4, s5, p, c4);
    AbsentAcrossWs(InsertSql3, s4, p, c3);
    AbsentAcrossWs(InsertSql2, s3, p, c2);
    AbsentAcrossWs(InsertSql1, s2, p, c1);
    AbsentAcrossWs(InsertSql0, s1, p, c0);
  }

  /** The INSERT names the `orders` table and the `*_id` columns, but none of
      `models`, `vendors`, `products`: `query` answers it with `[]`. */
  lemma InsertSqlRoutesNowhere()
    ensures Route(InsertSql) == NoBranch
  {
    InsertPieceFacts0(); InsertPieceFacts1(); InsertPieceFacts2(); InsertPieceFacts3();
    InsertPieceFacts4(); InsertPieceFacts5(); InsertPieceFacts6(); InsertPieceFacts7();
    InsertPieceFacts8(); InsertPieceFacts9(); InsertPieceFacts10();
    InsertSqlLacks("models", 'm', 'l', 's', 'm', 'm', 'm', 'm', 'm', 'm', 'm', 'm');
    InsertSqlLacks("vendors", 'v', 'v', 'v', 'v', 's', 'v', 'v', 'v', 'v', 'v', 'v');
    InsertSqlLacks("products", 'p', 'p', 'p', 's', 'p', 'p', 'u', 'p', 'p', 'p', 'p');
  }

  /** `getModelsByCategory`: the mock model table of the category, in table
      order (the ORDER BY is not interpreted). */
  method GetModelsByCategory(db: Database, category: string, pick: nat -> VendorIndex) returns (rows: seq<Row>)
    modifies db
    ensures db.isConnected
    ensures rows == ModelRows(MockModels(Str(category)))
  {
    var _ := db.Connect();
    ModelsSqlRoutesToModels();
    rows := db.Query(ModelsSql, [Str(category)], pick);
  }

  /** `getVendorsByModel`: one offer per product grade of the category, each
      for `modelId`, most expensive first although its SQL asks for ascending
      price. */
  method GetVendorsByModel(db: Database, modelId: int, category: Value, pick: nat -> VendorIndex)
    returns (rows: seq<Row>)
    modifies db
    ensures db.isConnected
    ensures rows == OfferRows(MockVendors(Num(modelId), category, pick))
    ensures forall i, j :: 0 <= i < j < |rows| ==> rows[i].offer.product.price > rows[j].offer.product.price
  {
    var _ := db.Connect();
    VendorsSqlRoutesToVendors();
    rows := db.Query(VendorsSqlSent, [Num(modelId), category], pick);
  }

  /** `placeOrder`: the INSERT matches no branch, so the query yields `[]` and
      the returned order id is always `undefined`. */
  method PlaceOrder(db: Database, order: OrderData, pick: nat -> VendorIndex) returns (id: Value)
    modifies db
    ensures db.isConnected
    ensures id == Undefined
  {
    var _ := db.Connect();
    InsertSqlRoutesNowhere();
    var rows := db.Query(InsertSql, PlaceOrderParams(order), pick);
    id := FirstRowId(rows);
  }
}
