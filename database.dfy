/** The mock catalog database of api/database.ts: a lazily created
    singleton with a connection flag, and a `query` that ignores the SQL
    except for a few keywords, which route it to constant tables. */
module MockDatabase {
  import opened Common

  /** A phone model row: `{ id, model_name, category }`. */
  datatype Model = Model(id: int, modelName: string, category: string)

  /** A product row: `{ id, model_id, quality_type, price, stock }`; `model_id`
      echoes whatever was passed as the first query parameter. */
  datatype Product = Product(id: int, modelId: Value, qualityType: string, price: int, stock: int)

  /** A vendor of the fixed vendor table; the rating is kept in tenths of a star. */
  datatype VendorInfo = VendorInfo(id: int, name: string, ratingTenths: int, deliveryDays: string)

  /** A vendor offer: a product row spread together with a `vendor` field. */
  datatype Offer = Offer(product: Product, vendor: VendorInfo)

  datatype Row = ModelRow(model: Model) | ProductRow(product: Product) | OfferRow(offer: Offer)

  /** The branches of `query`, in the order they are tried. */
  datatype Branch = ModelsBranch | JoinVendorsBranch | ProductsBranch | VendorsBranch | NoBranch

  /** The index `Math.floor(Math.random() * vendors.length)` can take. */
  type VendorIndex = i: int | 0 <= i < 5

  const VendorTable: seq<VendorInfo> := [
    VendorInfo(1, "MobilePro Parts", 48, "1-2"),
    VendorInfo(2, "PhoneFix Supply", 45, "2-3"),
    VendorInfo(3, "TechParts Direct", 47, "1-3"),
    VendorInfo(4, "RepairHub Store", 46, "2-4"),
    VendorInfo(5, "GadgetFix Parts", 44, "3-5")
  ]

  /** `params[i]`, which is `undefined` past the end of the array. */
  function Param(params: seq<Value>, i: nat): (v: Value)
    ensures i >= |params| ==> v == Undefined
    ensures i < |params| ==> v == params[i]
  {
    if i < |params| then params[i] else Undefined
  }

  /** Which branch `query` takes for a SQL text: the first keyword test that
      succeeds, in a fixed order. */
  function Route(sql: string): (b: Branch)
    ensures b == ModelsBranch <==> Contains(sql, "models")
    ensures b == ProductsBranch <==>
              !Contains(sql, "models") && Contains(sql, "products") && !Contains(sql, "vendors")
    ensures b == NoBranch <==>
              !Contains(sql, "models") && !Contains(sql, "vendors") && !Contains(sql, "products")
    ensures b == VendorsBranch ==> Contains(sql, "vendors") && !Contains(sql, "products")
  {
    ContainsSuffixOfPattern(sql, "JOIN ", "vendors");
    assert "JOIN " + "vendors" == "JOIN vendors";
    if Contains(sql, "models") then ModelsBranch
    else if Contains(sql, "JOIN vendors") || (Contains(sql, "vendors") && Contains(sql, "products")) then JoinVendorsBranch
    else if Contains(sql, "products") then ProductsBranch
    else if Contains(sql, "vendors") then VendorsBranch
    else NoBranch
  }

  function ModelRows(models: seq<Model>): (rows: seq<Row>)
    ensures |rows| == |models|
    ensures forall i :: 0 <= i < |rows| ==> rows[i] == ModelRow(models[i])
  {
    seq(|models|, i requires 0 <= i < |models| => ModelRow(models[i]))
  }

  function ProductRows(products: seq<Product>): (rows: seq<Row>)
    ensures |rows| == |products|
    ensures forall i :: 0 <= i < |rows| ==> rows[i] == ProductRow(products[i])
  {
    seq(|products|, i requires 0 <= i < |products| => ProductRow(products[i]))
  }

  function OfferRows(offers: seq<Offer>): (rows: seq<Row>)
    ensures |rows| == |offers|
    ensures forall i :: 0 <= i < |rows| ==> rows[i] == OfferRow(offers[i])
  {
    seq(|offers|, i requires 0 <= i < |offers| => OfferRow(offers[i]))
  }

  /** `getMockModels`: ten models per known category, ids 1..10 for displays
      and 11..20 for batteries, each tagged with its category. */
  function MockModels(category: Value): (r: seq<Model>)
    ensures category == Str("Display") ==>
              |r| == 10 && forall i :: 0 <= i < |r| ==> r[i].id == i + 1 && r[i].category == "Display"
    ensures category == Str("Battery") ==>
              |r| == 10 && forall i :: 0 <= i < |r| ==> r[i].id == i + 11 && r[i].category == "Battery"
    ensures category != Str("Display") && category != Str("Battery") ==> r == []
  {
    if category == Str("Display") then
      [ Model(1, "iPhone 12", "Display"),
        Model(2, "iPhone 13", "Display"),
        Model(3, "iPhone 14", "Display"),
        Model(4, "Samsung S21", "Display"),
        Model(5, "Samsung S22", "Display"),
        Model(6, "Samsung S23", "Display"),
        Model(7, "Google Pixel 6", "Display"),
        Model(8, "Google Pixel 7", "Display"),
        Model(9, "OnePlus 10", "Display"),
        Model(10, "OnePlus 11", "Display") ]
    else if category == Str("Battery") then
      [ Model(11, "iPhone 12", "Battery"),
        Model(12, "iPhone 13", "Battery"),
        Model(13, "iPhone 14", "Battery"),
        Model(14, "Samsung S21", "Battery"),
        Model(15, "Samsung S22", "Battery"),
        Model(16, "Samsung S23", "Battery"),
        Model(17, "Google Pixel 6", "Battery"),
        Model(18, "Google Pixel 7", "Battery"),
        Model(19, "OnePlus 10", "Battery"),
        Model(20, "OnePlus 11", "Battery") ]
    else
      []
  }

  /** `getMockProducts`: five display grades or three battery grades, all for
      the requested model and listed from the most to the least expensive. */
  function MockProducts(modelId: Value, category: Value): (r: seq<Product>)
    ensures category == Str("Display") ==> |r| == 5
    ensures category == Str("Battery") ==> |r| == 3
    ensures category != Str("Display") && category != Str("Battery") ==> r == []
    ensures forall i :: 0 <= i < |r| ==> r[i].modelId == modelId && r[i].stock > 0
    ensures forall i, j :: 0 <= i < j < |r| ==> r[i].price > r[j].price && r[i].id < r[j].id
  {
    if category == Str("Display") then
      [ Product(1, modelId, "OG", 120, 5),
        Product(2, modelId, "A+", 100, 10),
        Product(3, modelId, "A", 80, 15),
        Product(4, modelId, "B", 60, 20),
        Product(5, modelId, "Copy", 40, 25) ]
    else if category == Str("Battery") then
      [ Product(6, modelId, "OG", 50, 8),
        Product(7, modelId, "A+", 40, 12),
        Product(8, modelId, "A", 35, 18) ]
    else
      []
  }

  /** `getMockVendors`: the product rows, each extended with a vendor drawn
      from the vendor table; `pick` stands for the random draw of each row. */
  function MockVendors(modelId: Value, category: Value, pick: nat -> VendorIndex): (r: seq<Offer>)
    ensures |r| == |MockProducts(modelId, category)|
    ensures forall i :: 0 <= i < |r| ==>
              r[i].product == MockProducts(modelId, category)[i] && r[i].vendor in VendorTable
  {
    var products := MockProducts(modelId, category);
    seq(|products|, i requires 0 <= i < |products| => Offer(products[i], VendorTable[pick(i)]))
  }

  class Database {
    var isConnected: bool

    constructor ()
      ensures !isConnected
    {
      isConnected := false;
    }

    /** `connect`: after the simulated delay the flag is set and `true` resolved. */
    method Connect() returns (ok: bool)
      modifies this
      ensures isConnected && ok
    {
      isConnected := true;
      ok := true;
    }

    method Disconnect()
      modifies this
      ensures !isConnected
    {
      isConnected := false;
    }

    /** `query`: always resolves (there is no rejecting path) and ignores both
        the connection flag and everything in the SQL but its keywords. */
    function Query(sql: string, params: seq<Value>, pick: nat -> VendorIndex): (rows: seq<Row>)
      ensures Route(sql) == ModelsBranch ==> rows == ModelRows(MockModels(Param(params, 0)))
      ensures Route(sql) == JoinVendorsBranch || Route(sql) == VendorsBranch ==>
                rows == OfferRows(MockVendors(Param(params, 0), Param(params, 1), pick))
      ensures Route(sql) == ProductsBranch ==>
                rows == ProductRows(MockProducts(Param(params, 0), Param(params, 1)))
      ensures Route(sql) == NoBranch ==> rows == []
    {
      match Route(sql)
      case ModelsBranch => ModelRows(MockModels(Param(params, 0)))
      case JoinVendorsBranch => OfferRows(MockVendors(Param(params, 0), Param(params, 1), pick))
      case ProductsBranch => ProductRows(MockProducts(Param(params, 0), Param(params, 1)))
      case VendorsBranch => OfferRows(MockVendors(Param(params, 0), Param(params, 1), pick))
      case NoBranch => []
    }
  }

  /** The static side of the `Database` class: its `instance` field. */
  class DatabaseStatics {
    var instance: Database?

    constructor ()
      ensures instance == null
    {
      instance := null;
    }

    /** `getInstance`: creates the instance on the first call only. */
    method GetInstance() returns (db: Database)
      modifies this
      ensures instance == db
      ensures old(instance) != null ==> db == old(instance)
      ensures old(instance) == null ==> fresh(db) && !db.isConnected
    {
      if instance == null {
        instance := new Database();
      }
      db := instance;
    }
  }

  /** Every call of `getInstance` hands out the one shared instance. */
  method GetInstanceIsShared(statics: DatabaseStatics) returns (first: Database, second: Database)
    modifies statics
    ensures first == second && statics.instance == first
  {
    first := statics.GetInstance();
    second := statics.GetInstance();
  }

  /** The same phone models are offered in both categories, position by position. */
  lemma SameModelsInBothCategories(i: int)
    requires 0 <= i < 10
    ensures MockModels(Str("Display"))[i].modelName == MockModels(Str("Battery"))[i].modelName
    ensures MockModels(Str("Display"))[i].id + 10 == MockModels(Str("Battery"))[i].id
  {
  }
}
