/** The data service (web-next/src/services/sanity.ts): for each read it
    chooses between the content backend's answer and static mock data.

    The backend client and its query language are not modelled: a service
    either has a client or not, and each query's outcome is an input. */
module Sanity {
  import opened Core
  import opened Types
  import AppConfig

  /** The settings the client is created with. */
  datatype ClientConfig = ClientConfig(projectId: string, dataset: string, apiVersion: string, useCdn: bool)

  /** The module-level `client`: created only when the environment is
      configured, from `defaultConfig.sanity`, with the CDN off. */
  function ClientFor(env: AppConfig.Env): (c: Option<ClientConfig>)
    ensures c.Some? <==> AppConfig.IsConfigured(env)
    ensures c.Some? ==> c.value.projectId == env[AppConfig.ProjectIdVar]
    ensures c.Some? ==> c.value.dataset == AppConfig.DefaultConfig(env).sanity.dataset
    ensures c.Some? ==> c.value.apiVersion == AppConfig.SanityApiVersion && !c.value.useCdn
  {
    if AppConfig.IsConfigured(env) then
      var s := AppConfig.DefaultConfig(env).sanity;
      Some(ClientConfig(s.projectId, s.dataset, s.apiVersion, false))
    else None
  }

  /** `SanityService`; its `client` is fixed when it is constructed. */
  datatype SanityService = SanityService(client: Option<ClientConfig>)

  /** The exported singleton `sanityService`. */
  function ServiceFor(env: AppConfig.Env): SanityService
  {
    SanityService(ClientFor(env))
  }

  /** `checkConfiguration()`: whether a client exists (the warning it logs is not modelled). */
  predicate CheckConfiguration(svc: SanityService)
  {
    svc.client.Some?
  }

  /** What an awaited backend query gives: a truthy value, a falsy one
      (`null` or `undefined`; a number is treated apart, see
      FetchTaxRate), or an exception. */
  datatype Outcome<+T> = Ok(value: T) | Falsy | Throws

  // ---------------------------------------------------------------------
  // Mock data

  const Mock1 := Product("mock-product-1", "Classic T-Shirt", "classic-t-shirt",
    "A comfortable cotton t-shirt perfect for everyday wear.", 29.99,
    Some("https://via.placeholder.com/300x300?text=T-Shirt"), "mock-category-1", "inStock")
  const Mock2 := Product("mock-product-2", "Designer Hoodie", "designer-hoodie",
    "Premium quality hoodie with custom design options.", 79.99,
    Some("https://via.placeholder.com/300x300?text=Hoodie"), "mock-category-1", "inStock")
  const Mock3 := Product("mock-product-3", "Custom Cap", "custom-cap",
    "Adjustable cap with embroidery customization.", 24.99,
    Some("https://via.placeholder.com/300x300?text=Cap"), "mock-category-2", "inStock")

  /** `getMockProducts()` */
  function MockProducts(): seq<Product>
  {
    [Mock1, Mock2, Mock3]
  }

  /** `getMockCategories()` */
  function MockCategories(): seq<Category>
  {
    [Category("mock-category-1", "Apparel", "apparel",
       "Clothing items including t-shirts, hoodies, and more.",
       Some("https://via.placeholder.com/300x300?text=Apparel")),
     Category("mock-category-2", "Accessories", "accessories",
       "Fashion accessories like caps, bags, and jewelry.",
       Some("https://via.placeholder.com/300x300?text=Accessories"))]
  }

  // ---------------------------------------------------------------------
  // The in-memory predicates used on the mock data

  /** `ps.filter(p => p.categoryId === categoryId)` */
  function InCategory(ps: seq<Product>, categoryId: string): (r: seq<Product>)
    ensures forall p :: p in r <==> p in ps && p.categoryId == categoryId
    ensures forall i :: 0 <= i < |r| ==> r[i].categoryId == categoryId
    ensures |r| <= |ps|
  {
    if ps == [] then []
    else if ps[0].categoryId == categoryId then [ps[0]] + InCategory(ps[1..], categoryId)
    else InCategory(ps[1..], categoryId)
  }

  /** Filtering keeps the order: filtering a concatenation filters each part. */
  lemma {:induction false} InCategoryDistributes(a: seq<Product>, b: seq<Product>, categoryId: string)
    ensures InCategory(a + b, categoryId) == InCategory(a, categoryId) + InCategory(b, categoryId)
  {
    if a == [] {
      assert a + b == b;
    } else {
      var head := if a[0].categoryId == categoryId then [a[0]] else [];
      assert (a + b)[0] == a[0] && (a + b)[1..] == a[1..] + b;
      calc {
        InCategory(a + b, categoryId);
        { InCategoryStep(a + b, categoryId); }
        head + InCategory(a[1..] + b, categoryId);
        { InCategoryDistributes(a[1..], b, categoryId); }
        head + (InCategory(a[1..], categoryId) + InCategory(b, categoryId));
        (head + InCategory(a[1..], categoryId)) + InCategory(b, categoryId);
        { InCategoryStep(a, categoryId); }
        InCategory(a, categoryId) + InCategory(b, categoryId);
      }
    }
  }

  /** One step of the filter: the first product, if it matches, then the rest. */
  lemma InCategoryStep(ps: seq<Product>, categoryId: string)
    requires ps != []
    ensures InCategory(ps, categoryId)
            == (if ps[0].categoryId == categoryId then [ps[0]] else []) + InCategory(ps[1..], categoryId)
  {
  }

  /** `ps.find(p => p.id === productId) || null` */
  function FirstWithId(ps: seq<Product>, productId: string): (r: Option<Product>)
    ensures r.Some? ==> r.value in ps && r.value.id == productId
    ensures r.None? <==> forall i :: 0 <= i < |ps| ==> ps[i].id != productId
    ensures r.Some? ==> exists i :: 0 <= i < |ps| && ps[i] == r.value
                          && forall j :: 0 <= j < i ==> ps[j].id != productId
  {
    if ps == [] then None
    else if ps[0].id == productId then Some(ps[0])
    else
      var r := FirstWithId(ps[1..], productId);
      if r.Some? then
        var i :| 0 <= i < |ps[1..]| && ps[1..][i] == r.value
                 && forall j :: 0 <= j < i ==> ps[1..][j].id != productId;
        assert ps[i + 1] == r.value;
        assert forall j :: 0 <= j < i + 1 ==> ps[j].id != productId by {
          forall j | 0 <= j < i + 1 ensures ps[j].id != productId {
            if j > 0 { assert ps[j] == ps[1..][j - 1]; }
          }
        }
        r
      else r
  }

  // ---------------------------------------------------------------------
  // The five reads

  const DefaultTaxRate: real := 18.0

  /** `fetchProducts()` */
  function FetchProducts(svc: SanityService, q: Outcome<seq<Product>>): (r: seq<Product>)
    ensures !CheckConfiguration(svc) || q.Throws? ==> r == MockProducts()
    ensures CheckConfiguration(svc) && q.Falsy? ==> r == []
    ensures CheckConfiguration(svc) && q.Ok? ==> r == q.value
  {
    if !CheckConfiguration(svc) then MockProducts()
    else match q
      case Ok(v) => v
      case Falsy => []
      case Throws => MockProducts()
  }

  /** `fetchCategories()` */
  function FetchCategories(svc: SanityService, q: Outcome<seq<Category>>): (r: seq<Category>)
    ensures !CheckConfiguration(svc) || q.Throws? ==> r == MockCategories()
    ensures CheckConfiguration(svc) && q.Falsy? ==> r == []
    ensures CheckConfiguration(svc) && q.Ok? ==> r == q.value
  {
    if !CheckConfiguration(svc) then MockCategories()
    else match q
      case Ok(v) => v
      case Falsy => []
      case Throws => MockCategories()
  }

  /** `fetchProductsByCategory(categoryId)`. The fallback is the mock list
      filtered in memory; what the backend's own filter does is not modelled. */
  function FetchProductsByCategory(svc: SanityService, categoryId: string, q: Outcome<seq<Product>>): (r: seq<Product>)
    ensures !CheckConfiguration(svc) || q.Throws? ==>
              forall p :: p in r <==> p in MockProducts() && p.categoryId == categoryId
    ensures CheckConfiguration(svc) && q.Falsy? ==> r == []
    ensures CheckConfiguration(svc) && q.Ok? ==> r == q.value
  {
    if !CheckConfiguration(svc) then InCategory(MockProducts(), categoryId)
    else match q
      case Ok(v) => v
      case Falsy => []
      case Throws => InCategory(MockProducts(), categoryId)
  }

  /** `fetchProductById(productId)`; a product object is always truthy. */
  function FetchProductById(svc: SanityService, productId: string, q: Outcome<Product>): (r: Option<Product>)
    ensures !CheckConfiguration(svc) || q.Throws? ==>
              (r.Some? ==> r.value in MockProducts() && r.value.id == productId)
    ensures !CheckConfiguration(svc) || q.Throws? ==>
              (r.None? <==> forall p :: p in MockProducts() ==> p.id != productId)
    ensures CheckConfiguration(svc) && q.Falsy? ==> r == None
    ensures CheckConfiguration(svc) && q.Ok? ==> r == Some(q.value)
  {
    if !CheckConfiguration(svc) then FirstWithId(MockProducts(), productId)
    else match q
      case Ok(v) => Some(v)
      case Falsy => None
      case Throws => FirstWithId(MockProducts(), productId)
  }

  /** `fetchTaxRate()`: `result || 18.0`, where a stored 0 is falsy too. */
  function FetchTaxRate(svc: SanityService, q: Outcome<real>): (r: real)
    ensures !CheckConfiguration(svc) || q.Throws? || q.Falsy? ==> r == DefaultTaxRate
    ensures q == Ok(0.0) ==> r == DefaultTaxRate
    ensures CheckConfiguration(svc) && q.Ok? && q.value != 0.0 ==> r == q.value
    ensures r != 0.0
  {
    if !CheckConfiguration(svc) then DefaultTaxRate
    else match q
      case Ok(v) => if v != 0.0 then v else DefaultTaxRate
      case Falsy => DefaultTaxRate
      case Throws => DefaultTaxRate
  }

  // ---------------------------------------------------------------------
  // Properties of the fallback policy

  /** A client exists exactly when the environment is configured. */
  lemma ClientIffConfigured(env: AppConfig.Env)
    ensures CheckConfiguration(ServiceFor(env)) <==> AppConfig.IsConfigured(env)
  {
  }

  /** Without a client no query is issued: no read depends on the query outcome. */
  lemma UnconfiguredIgnoresBackend(svc: SanityService, categoryId: string, productId: string,
                                   a: Outcome<seq<Product>>, b: Outcome<seq<Product>>,
                                   c: Outcome<seq<Category>>, d: Outcome<seq<Category>>,
                                   e: Outcome<Product>, f: Outcome<Product>,
                                   g: Outcome<real>, h: Outcome<real>)
    requires !CheckConfiguration(svc)
    ensures FetchProducts(svc, a) == FetchProducts(svc, b) == MockProducts()
    ensures FetchCategories(svc, c) == FetchCategories(svc, d) == MockCategories()
    ensures FetchProductsByCategory(svc, categoryId, a) == FetchProductsByCategory(svc, categoryId, b)
    ensures FetchProductById(svc, productId, e) == FetchProductById(svc, productId, f)
    ensures FetchTaxRate(svc, g) == FetchTaxRate(svc, h) == DefaultTaxRate
  {
  }

  /** A throwing query gives exactly what the unconfigured service gives
      for the same read and argument. */
  lemma ThrowsActsAsUnconfigured(svc: SanityService, categoryId: string, productId: string,
                                 a: Outcome<seq<Product>>, c: Outcome<seq<Category>>,
                                 e: Outcome<Product>, g: Outcome<real>)
    ensures FetchProducts(svc, Throws) == FetchProducts(SanityService(None), a)
    ensures FetchCategories(svc, Throws) == FetchCategories(SanityService(None), c)
    ensures FetchProductsByCategory(svc, categoryId, Throws) == FetchProductsByCategory(SanityService(None), categoryId, a)
    ensures FetchProductById(svc, productId, Throws) == FetchProductById(SanityService(None), productId, e)
    ensures FetchTaxRate(svc, Throws) == FetchTaxRate(SanityService(None), g)
  {
  }

  /** The mock set: three products with distinct ids, each in one of the two mock categories. */
  lemma MockDataConsistent()
    ensures |MockProducts()| == 3 && |MockCategories()| == 2
    ensures forall i, j :: 0 <= i < j < |MockProducts()| ==> MockProducts()[i].id != MockProducts()[j].id
    ensures forall p :: p in MockProducts() ==>
              exists c :: c in MockCategories() && c.id == p.categoryId
  {
    var cs := MockCategories();
    assert Mock1.categoryId == cs[0].id && Mock2.categoryId == cs[0].id && Mock3.categoryId == cs[1].id;
  }

  /** The fallback for `mock-category-1` is products 1 and 2, in that order;
      for `mock-category-2` it is product 3; an unknown id gives nothing. */
  lemma MockByCategory(unknown: string)
    requires unknown != "mock-category-1" && unknown != "mock-category-2"
    ensures FetchProductsByCategory(SanityService(None), "mock-category-1", Falsy) == [Mock1, Mock2]
    ensures FetchProductsByCategory(SanityService(None), "mock-category-2", Falsy) == [Mock3]
    ensures FetchProductsByCategory(SanityService(None), unknown, Falsy) == []
  {
    assert MockProducts()[1..] == [Mock2, Mock3];
    assert MockProducts()[1..][1..] == [Mock3];
    assert MockProducts()[1..][1..][1..] == [];
    assert InCategory([Mock3], unknown) == [];
    assert InCategory([Mock2, Mock3], unknown) == [];
  }

  /** Every product of the by-category fallback is one of the products the
      `fetchProducts` fallback lists. */
  lemma ByCategoryFallbackWithinProducts(svc: SanityService, categoryId: string, q: Outcome<seq<Product>>,
                                         other: Outcome<seq<Product>>)
    requires !CheckConfiguration(svc) || q.Throws?
    ensures forall p :: p in FetchProductsByCategory(svc, categoryId, q) ==>
              p in FetchProducts(svc, if CheckConfiguration(svc) then Throws else other)
  {
  }

  /** The by-id fallback finds each mock product by its own id. */
  lemma MockById()
    ensures forall i :: 0 <= i < |MockProducts()| ==>
              FetchProductById(SanityService(None), MockProducts()[i].id, Falsy) == Some(MockProducts()[i])
  {
    MockDataConsistent();
    forall i | 0 <= i < |MockProducts()|
      ensures FirstWithId(MockProducts(), MockProducts()[i].id) == Some(MockProducts()[i])
    {
      var r := FirstWithId(MockProducts(), MockProducts()[i].id);
      var k :| 0 <= k < |MockProducts()| && MockProducts()[k] == r.value
               && forall j :: 0 <= j < k ==> MockProducts()[j].id != MockProducts()[i].id;
      assert k == i;
    }
  }
}
