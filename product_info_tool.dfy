/** The product tools (src/tools/product_info.tool.ts): `get_product_info`, a
    lookup by the `productId` argument over the inline product table, and
    `list_all_products`, a summary of every product in table order. */
module ProductInfoTool {
  import opened Wrappers
  import opened Lookup

  /** A product record; the numeric fields are JavaScript numbers, only copied. */
  datatype Product = Product(
    productName: string,
    productId: string,
    category: string,
    unitOfMeasure: string,
    standardCostPerKG: real,
    manufacturingLeadTime: real,
    rawMaterial1: string,
    rawMaterial2: string,
    rawMaterial3: string,
    storageRequirements: string)

  /** The tool's own table: a single product. */
  const MockProducts: seq<Product> := [
    Product(
      "Advanced Polymer Resin (APR-200)",
      "APR-200-P-0421",
      "Specialty Chemicals / Composites",
      "Kilogram (KG)",
      18.5,
      15.0,
      "Isophthalic Acid: 70%",
      "Glycol Ether: 20%",
      "Cobalt Octoate: 10%",
      "Cool, dry environment; temperature < 30°C")
  ]

  function ProductIdOf(p: Product): string
  {
    p.productId
  }

  /** `get_product_info`: the first product with the requested id, or the
      not-found text. */
  function GetProductInfo(productId: string): (r: LookupResult<Product>)
    ensures r.Found? <==> exists i :: 0 <= i < |MockProducts| && MockProducts[i].productId == productId
    ensures r.Found? ==> r.record.productId == productId && r.record in MockProducts
    ensures r.Found? ==> Find(MockProducts, ProductIdOf, productId) == Some(r.record)
    ensures r.NotFound? ==> r.message == "Product ID: " + productId + " not found"
  {
    LookupById(MockProducts, ProductIdOf, "Product", productId)
  }

  /** Over the inline table exactly one id is found. */
  lemma GetProductInfoInlineTable(productId: string)
    ensures GetProductInfo(productId).Found? <==> productId == "APR-200-P-0421"
    ensures GetProductInfo(productId).Found? ==> GetProductInfo(productId).record == MockProducts[0]
  {
    LookupSingleton(MockProducts[0], ProductIdOf, "Product", productId);
  }

  /** One entry of the `list_all_products` answer. */
  datatype ProductSummary = ProductSummary(productId: string, productName: string, category: string, costPerKG: real)

  /** The summary of a product copies its id, name and category, and takes the
      cost per kilogram from the standard cost. */
  function Summarize(p: Product): (r: ProductSummary)
    ensures r.productId == p.productId && r.productName == p.productName && r.category == p.category
    ensures r.costPerKG == p.standardCostPerKG
  {
    ProductSummary(p.productId, p.productName, p.category, p.standardCostPerKG)
  }

  /** The projection `products.map(...)`: one summary per product, in order, each
      copying the id, name and category and taking the cost per kilogram from the
      standard cost. */
  function ListProducts(products: seq<Product>): (r: seq<ProductSummary>)
    ensures |r| == |products|
    ensures forall i :: 0 <= i < |r| ==>
      && r[i].productId == products[i].productId
      && r[i].productName == products[i].productName
      && r[i].category == products[i].category
      && r[i].costPerKG == products[i].standardCostPerKG
  {
    if products == [] then [] else [Summarize(products[0])] + ListProducts(products[1..])
  }

  /** `list_all_products` over the inline table. */
  function ListAllProducts(): (r: seq<ProductSummary>)
    ensures |r| == |MockProducts|
    ensures forall i :: 0 <= i < |r| ==> r[i] == Summarize(MockProducts[i])
  {
    ListProducts(MockProducts)
  }

  /** Every product the lookup finds is listed, at the position of its first
      occurrence, under the requested id. */
  lemma FoundProductIsListed(products: seq<Product>, productId: string)
    requires Find(products, ProductIdOf, productId).Some?
    ensures exists i :: (0 <= i < |products|
      && ListProducts(products)[i] == Summarize(Find(products, ProductIdOf, productId).value)
      && ListProducts(products)[i].productId == productId)
  {
    var p := Find(products, ProductIdOf, productId).value;
    var i :| 0 <= i < |products| && products[i] == p
      && forall j :: 0 <= j < i ==> ProductIdOf(products[j]) != productId;
    assert ListProducts(products)[i] == Summarize(p);
  }
}
