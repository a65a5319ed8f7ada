/** The product service (src/services/api/productService.js): the canned
    product analysis and the product table. */
module ProductService {
  import opened JsValues
  import opened Tables
  import opened NumericIdTable

  const ProductNotFound := "Product not found"

  const ProductName := "Automated Commission System"
  const ProductDescription :=
    "A comprehensive affiliate marketing system that automates commission generation through the P.E.A Blueprint methodology."

  const Features: seq<string> := [
    "P.E.A Blueprint methodology",
    "Automated commission tracking",
    "Email marketing integration",
    "Landing page templates",
    "Analytics dashboard"]

  const Gaps: seq<string> := [
    "No pre-built email sequences",
    "Limited bonus creation tools",
    "No social media templates",
    "Missing conversion optimization guides",
    "No advanced funnel templates"]

  /** The outcome of analyzeProduct. `id` is the clock reading in
      milliseconds, `analyzedAt` the creation time as text. */
  datatype ProductAnalysis = ProductAnalysis(
    id: int,
    url: Value,
    name: string,
    description: string,
    features: seq<string>,
    gaps: seq<string>,
    analyzedAt: string)

  /** analyzeProduct: a fixed analysis that echoes the url it was given. */
  function AnalyzeProduct(url: Value, now: int, analyzedAt: string): (a: ProductAnalysis)
    ensures a.url == url && a.id == now && a.analyzedAt == analyzedAt
    ensures |a.features| == 5 && |a.gaps| == 5
    ensures a.name == ProductName
  {
    ProductAnalysis(now, url, ProductName, ProductDescription, Features, Gaps, analyzedAt)
  }

  /** The url is only echoed: two analyses at the same time differ in the
      url field alone. */
  lemma AnalysisIgnoresUrl(u1: Value, u2: Value, now: int, analyzedAt: string)
    ensures AnalyzeProduct(u1, now, analyzedAt).(url := u2) == AnalyzeProduct(u2, now, analyzedAt)
  {
  }

  class ProductStore {
    var products: seq<Record>

    /** The table as loaded from the product fixtures. */
    constructor (fixture: seq<Record>)
      ensures products == fixture
    {
      products := fixture;
    }

    /** getAll hands out the live table. */
    method GetAll() returns (r: seq<Record>)
      ensures r == products
    {
      r := products;
    }

    method GetById(id: Value) returns (r: Option<Record>)
      ensures r == LookupId(products, id)
    {
      r := LookupId(products, id);
    }

    /** create numbers the product after the largest Id in the table. */
    method Create(product: Record, createdAt: string) returns (newProduct: Record)
      requires |products| > 0 && NumericIds(products)
      modifies this
      ensures newProduct == NewRow(product, old(products), createdAt)
      ensures products == old(products) + [newProduct]
    {
      newProduct := NewRow(product, products, createdAt);
      products := products + [newProduct];
    }

    method Update(id: Value, updates: Record) returns (r: Completion<Record>)
      modifies this
      ensures IndexOfId(old(products), id).None? ==> r == Throw(Error(ProductNotFound)) && products == old(products)
      ensures IndexOfId(old(products), id).Some? ==>
        var i := IndexOfId(old(products), id).value;
        products == MergeAt(old(products), i, updates) && r == Return(products[i])
    {
      var index := IndexOfId(products, id);
      if index.None? {
        return Throw(Error(ProductNotFound));
      }
      products := MergeAt(products, index.value, updates);
      r := Return(products[index.value]);
    }

    method Delete(id: Value) returns (r: Completion<bool>)
      modifies this
      ensures IndexOfId(old(products), id).None? ==> r == Throw(Error(ProductNotFound)) && products == old(products)
      ensures IndexOfId(old(products), id).Some? ==>
        r == Return(true) && products == RemoveAt(old(products), IndexOfId(old(products), id).value)
    {
      var index := IndexOfId(products, id);
      if index.None? {
        return Throw(Error(ProductNotFound));
      }
      products := RemoveAt(products, index.value);
      r := Return(true);
    }
  }
}
