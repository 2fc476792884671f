/** The reference-data cache: the instruments named by the position
    configurations, loaded once at start-up and read-only afterwards. */
module Products {
  import opened Common
  import opened Api

  /** What `getProduct` answers for an id: the product, null, or an
      `ApiException`. */
  datatype ProductAnswer = Found(product: Product) | NotFound | ApiFailure

  /** How loading ends: every configuration was looked up, or loading was
      aborted at the first id whose lookup failed (the start-up error). */
  datatype LoadResult = Loaded | Aborted(id: string)

  /** Loading `configs` in order into `m`: a found product is stored under
      the configuration's id, a missing one is skipped, and a failed lookup
      stops the load there. */
  function Load(m: map<string, Product>, configs: seq<PositionConfig>, getProduct: string -> ProductAnswer)
    : (r: (map<string, Product>, LoadResult))
    ensures m.Keys <= r.0.Keys
    ensures r.1.Aborted? ==> exists i :: 0 <= i < |configs| && configs[i].id == r.1.id && getProduct(configs[i].id).ApiFailure?
    ensures r.1.Loaded? <==> forall i :: 0 <= i < |configs| ==> !getProduct(configs[i].id).ApiFailure?
    decreases |configs|
  {
    if |configs| == 0 then (m, Loaded)
    else
      var id := configs[0].id;
      match getProduct(id)
      case ApiFailure => (m, Aborted(id))
      case NotFound =>
        var r := Load(m, configs[1..], getProduct);
        assert forall i :: 1 <= i < |configs| ==> configs[i] == configs[1..][i - 1];
        r
      case Found(p) =>
        var r := Load(m[id := p], configs[1..], getProduct);
        assert forall i :: 1 <= i < |configs| ==> configs[i] == configs[1..][i - 1];
        r
  }

  /** A complete load from an empty cache holds exactly the configured ids
      whose lookup found a product, each under the product found. */
  lemma {:induction false} LoadedExactly(m: map<string, Product>, configs: seq<PositionConfig>, getProduct: string -> ProductAnswer, id: string)
    requires Load(m, configs, getProduct).1.Loaded?
    ensures id in Load(m, configs, getProduct).0 <==>
      id in m || exists i :: 0 <= i < |configs| && configs[i].id == id && getProduct(id).Found?
    ensures (exists i :: 0 <= i < |configs| && configs[i].id == id) && getProduct(id).Found? ==>
      Load(m, configs, getProduct).0[id] == getProduct(id).product
    ensures (forall i :: 0 <= i < |configs| ==> configs[i].id != id) && id in m ==>
      Load(m, configs, getProduct).0[id] == m[id]
    decreases |configs|
  {
    if |configs| > 0 {
      var first := configs[0].id;
      var rest := configs[1..];
      assert forall i :: 1 <= i < |configs| ==> configs[i] == rest[i - 1];
      assert forall i :: 0 <= i < |rest| ==> rest[i] == configs[i + 1];
      match getProduct(first)
      case NotFound =>
        LoadedExactly(m, rest, getProduct, id);
      case Found(p) =>
        LoadedExactly(m[first := p], rest, getProduct, id);
        if id != first && (exists i :: 0 <= i < |configs| && configs[i].id == id) {
          var i :| 0 <= i < |configs| && configs[i].id == id;
          assert rest[i - 1].id == id;
        }
    }
  }

  class ProductRepository {
    /** The position configurations, in their configured order. */
    const configs: seq<PositionConfig>
    var products: map<string, Product>

    constructor (configs: seq<PositionConfig>)
      ensures this.configs == configs && products == map[]
    {
      this.configs := configs;
      products := map[];
    }

    /** `init`: one lookup per configuration, in order. */
    method Init(getProduct: string -> ProductAnswer) returns (result: LoadResult)
      modifies this`products
      ensures (products, result) == Load(old(products), configs, getProduct)
    {
      var i := 0;
      result := Loaded;
      while i < |configs|
        invariant 0 <= i <= |configs|
        invariant Load(products, configs[i..], getProduct) == Load(old(products), configs, getProduct)
      {
        var id := configs[i].id;
        assert configs[i..][1..] == configs[i + 1..];
        match getProduct(id) {
          case ApiFailure =>
            return Aborted(id);
          case NotFound =>
          case Found(p) =>
            products := products[id := p];
        }
        i := i + 1;
      }
    }

    /** `product(id)`: the cached product, or nothing. */
    function Product(id: string): (r: Option<Api.Product>)
      reads this
      ensures r.Some? <==> id in products
      ensures r.Some? ==> r.value == products[id]
    {
      if id in products then Some(products[id]) else None
    }

    /** `products()`: every cached product. */
    function Products(): (r: set<Api.Product>)
      reads this
      ensures forall p :: p in r <==> exists id :: id in products && products[id] == p
    {
      set id | id in products :: products[id]
    }
  }
}
