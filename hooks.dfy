/** The client data hooks (web-next/src/hooks/useApi.ts). Each hook owns
    three state cells, payload, loading and error, that its effect updates
    through setters; here a hook is an object with those three fields and
    each effect run is a method call. The HTTP response an effect receives
    is an input. */
module Hooks {
  import opened Core
  import opened Types
  import AppConfig
  import Routes
  import Sanity

  /** What `fetch` gives: a response with a status and a body whose
      `.json()` parses to an envelope or throws, or a thrown network error. */
  datatype HttpOutcome<+T> = Responded(status: nat, json: Attempt<ApiResponse<T>>) | FetchFailed(thrown: Thrown)

  /** `response.ok` */
  predicate IsOk(status: nat)
  {
    200 <= status <= 299
  }

  const RequestFailedPrefix := "API request failed: "

  /** `fetchAPI`: a non-ok status becomes an `Error` naming the status. */
  function FetchApi<T>(h: HttpOutcome<T>): (a: Attempt<ApiResponse<T>>)
    ensures h.FetchFailed? ==> a == Raised(h.thrown)
    ensures h.Responded? && IsOk(h.status) ==> a == h.json
    ensures h.Responded? && !IsOk(h.status) ==>
              a == Raised(ErrorInstance("API request failed: " + NatToString(h.status)))
              && NumberBetween(a.thrown.message, RequestFailedPrefix, "") == Some(h.status)
  {
    match h
    case FetchFailed(e) => Raised(e)
    case Responded(status, json) =>
      if IsOk(status) then json
      else
        assert RequestFailedPrefix + NatToString(status) + "" == RequestFailedPrefix + NatToString(status);
        NumberBetweenRoundTrip(RequestFailedPrefix, status, "");
        Raised(ErrorInstance(RequestFailedPrefix + NatToString(status)))
  }

  /** `API_BASE_URL`, the prefix of every request path: the public API
      URL when set and non-empty, else `/api`. */
  function ApiBaseUrl(env: AppConfig.Env): (base: string)
    ensures AppConfig.IsSet(env, "NEXT_PUBLIC_API_URL") ==> base == env["NEXT_PUBLIC_API_URL"]
    ensures !AppConfig.IsSet(env, "NEXT_PUBLIC_API_URL") ==> base == "/api"
  {
    AppConfig.EnvOr(env, "NEXT_PUBLIC_API_URL", "/api")
  }

  /** The three cells of a hook. */
  datatype Cells<+T> = Cells(payload: T, loading: bool, error: Option<string>)

  const UnknownError := "Unknown error"

  /** The cells after one load completes: `try` sets the payload or the
      error, `finally` clears loading. */
  function Settled<T>(before: Cells<T>, a: Attempt<ApiResponse<T>>, failMessage: string): (after: Cells<T>)
    ensures !after.loading
    ensures a.Returned? && a.value.success ==> after.payload == a.value.data && after.error == before.error
    ensures a.Returned? && !a.value.success ==>
              after.payload == before.payload && after.error == Some(StringOr(a.value.error, failMessage))
    ensures a.Raised? ==> after.payload == before.payload && after.error == Some(MessageOf(a.thrown, UnknownError))
    // an error, once set, stays set
    ensures before.error.Some? ==> after.error.Some?
    // only a success envelope changes the payload
    ensures after.payload != before.payload ==> a.Returned? && a.value.success
  {
    match a
    case Returned(response) =>
      if response.success then Cells(response.data, false, before.error)
      else Cells(before.payload, false, Some(StringOr(response.error, failMessage)))
    case Raised(e) => Cells(before.payload, false, Some(MessageOf(e, UnknownError)))
  }

  /** The state of one hook instance. */
  class Hook<T> {
    var payload: T
    var loading: bool
    var error: Option<string>
    /** The hook's own message for a `success=false` envelope without an error. */
    const failMessage: string

    function State(): Cells<T>
      reads this
    {
      Cells(payload, loading, error)
    }

    /** `useState` for the three cells. */
    constructor (initial: T, failMessage: string)
      ensures State() == Cells(initial, true, None)
      ensures this.failMessage == failMessage
    {
      payload := initial;
      loading := true;
      error := None;
      this.failMessage := failMessage;
    }

    /** The body of a hook's `load…` function, given the response. */
    method Load(h: HttpOutcome<T>)
      modifies this
      ensures State() == Settled(old(State()), FetchApi(h), failMessage)
    {
      loading := true;
      var a := FetchApi(h);
      match a {
        case Returned(response) =>
          if response.success {
            payload := response.data;
          } else {
            error := Some(StringOr(response.error, failMessage));
          }
        case Raised(e) =>
          error := Some(MessageOf(e, UnknownError));
      }
      loading := false;
    }

    /** The early return of an effect whose id is missing: the payload is
        reset and loading cleared, with no fetch. */
    method Skip(empty: T)
      modifies this
      ensures State() == Cells(empty, false, old(error))
    {
      payload := empty;
      loading := false;
    }
  }

  /** JavaScript `!id` for `string | null`. */
  predicate IsFalsyId(id: Option<string>)
  {
    id.None? || id.value == ""
  }

  /** `useProducts()` before its effect runs. */
  method UseProducts() returns (h: Hook<seq<Product>>)
    ensures fresh(h) && h.State() == Cells([], true, None) && h.failMessage == "Failed to fetch products"
  {
    h := new Hook([], "Failed to fetch products");
  }

  /** `useCategories()` before its effect runs. */
  method UseCategories() returns (h: Hook<seq<Category>>)
    ensures fresh(h) && h.State() == Cells([], true, None) && h.failMessage == "Failed to fetch categories"
  {
    h := new Hook([], "Failed to fetch categories");
  }

  /** `useProduct(productId)` before its effect runs. */
  method UseProduct() returns (h: Hook<Option<Product>>)
    ensures fresh(h) && h.State() == Cells(None, true, None) && h.failMessage == "Failed to fetch product"
  {
    h := new Hook(None, "Failed to fetch product");
  }

  /** `useProductsByCategory(categoryId)` before its effect runs. */
  method UseProductsByCategory() returns (h: Hook<seq<Product>>)
    ensures fresh(h) && h.State() == Cells([], true, None) && h.failMessage == "Failed to fetch products"
  {
    h := new Hook([], "Failed to fetch products");
  }

  /** `useTaxRate()` before its effect runs. */
  method UseTaxRate() returns (h: Hook<real>)
    ensures fresh(h) && h.State() == Cells(18.0, true, None) && h.failMessage == "Failed to fetch tax rate"
  {
    h := new Hook(18.0, "Failed to fetch tax rate");
  }

  /** The effect of `useProducts` and `useCategories`: one request to a
      fixed endpoint. Returns the URL requested. */
  method RunListEffect<T>(h: Hook<T>, env: AppConfig.Env, endpoint: string, response: HttpOutcome<T>) returns (requested: string)
    modifies h
    ensures requested == ApiBaseUrl(env) + endpoint
    ensures h.State() == Settled(old(h.State()), FetchApi(response), h.failMessage)
  {
    requested := ApiBaseUrl(env) + endpoint;
    h.Load(response);
  }

  /** The effect of `useProducts()`: `fetchAPI('/products')`. */
  method RunProductsEffect(h: Hook<seq<Product>>, env: AppConfig.Env, response: HttpOutcome<seq<Product>>)
    returns (requested: string)
    modifies h
    ensures requested == ApiBaseUrl(env) + "/products"
    ensures h.State() == Settled(old(h.State()), FetchApi(response), h.failMessage)
  {
    requested := RunListEffect(h, env, "/products", response);
  }

  /** The effect of `useCategories()`: `fetchAPI('/categories')`. */
  method RunCategoriesEffect(h: Hook<seq<Category>>, env: AppConfig.Env, response: HttpOutcome<seq<Category>>)
    returns (requested: string)
    modifies h
    ensures requested == ApiBaseUrl(env) + "/categories"
    ensures h.State() == Settled(old(h.State()), FetchApi(response), h.failMessage)
  {
    requested := RunListEffect(h, env, "/categories", response);
  }

  /** The envelope of `Product` seen as the hook's `Product | null` payload. */
  function AsOptionalProduct(h: HttpOutcome<Product>): HttpOutcome<Option<Product>>
  {
    match h
    case FetchFailed(e) => FetchFailed(e)
    case Responded(status, Raised(e)) => Responded(status, Raised(e))
    case Responded(status, Returned(r)) =>
      Responded(status, Returned(ApiResponse(Some(r.data), r.success, r.message, r.error)))
  }

  /** The effect of `useProduct(productId)`. A missing id resets the
      product with no request (`requested` is None). */
  method RunProductEffect(h: Hook<Option<Product>>, env: AppConfig.Env, productId: Option<string>, response: HttpOutcome<Product>)
    returns (requested: Option<string>)
    modifies h
    ensures IsFalsyId(productId) ==> requested == None && h.State() == Cells(None, false, old(h.error))
    ensures !IsFalsyId(productId) ==>
              requested == Some(ApiBaseUrl(env) + "/products/" + productId.value)
              && h.State() == Settled(old(h.State()), FetchApi(AsOptionalProduct(response)), h.failMessage)
  {
    if IsFalsyId(productId) {
      h.Skip(None);
      requested := None;
    } else {
      requested := Some(ApiBaseUrl(env) + "/products/" + productId.value);
      h.Load(AsOptionalProduct(response));
    }
  }

  /** The effect of `useProductsByCategory(categoryId)`. */
  method RunProductsByCategoryEffect(h: Hook<seq<Product>>, env: AppConfig.Env, categoryId: Option<string>,
                                     response: HttpOutcome<seq<Product>>)
    returns (requested: Option<string>)
    modifies h
    ensures IsFalsyId(categoryId) ==> requested == None && h.State() == Cells([], false, old(h.error))
    ensures !IsFalsyId(categoryId) ==>
              requested == Some(ApiBaseUrl(env) + "/categories/" + categoryId.value + "/products")
              && h.State() == Settled(old(h.State()), FetchApi(response), h.failMessage)
  {
    if IsFalsyId(categoryId) {
      h.Skip([]);
      requested := None;
    } else {
      requested := Some(ApiBaseUrl(env) + "/categories/" + categoryId.value + "/products");
      h.Load(response);
    }
  }

  /** `response.data.taxRate`: the envelope of `{taxRate}` seen as the hook's number. */
  function AsTaxRate(h: HttpOutcome<TaxRateData>): HttpOutcome<real>
  {
    match h
    case FetchFailed(e) => FetchFailed(e)
    case Responded(status, Raised(e)) => Responded(status, Raised(e))
    case Responded(status, Returned(r)) =>
      Responded(status, Returned(ApiResponse(r.data.taxRate, r.success, r.message, r.error)))
  }

  /** The effect of `useTaxRate`. */
  method RunTaxRateEffect(h: Hook<real>, env: AppConfig.Env, response: HttpOutcome<TaxRateData>) returns (requested: string)
    modifies h
    ensures requested == ApiBaseUrl(env) + "/settings/tax-rate"
    ensures h.State() == Settled(old(h.State()), FetchApi(AsTaxRate(response)), h.failMessage)
  {
    requested := ApiBaseUrl(env) + "/settings/tax-rate";
    h.Load(AsTaxRate(response));
  }

  // ---------------------------------------------------------------------
  // Hooks fed by the route handlers

  /** A reply of one of the handlers, as `fetch` delivers it. */
  function Deliver<T>(r: Routes.Reply<T>): HttpOutcome<T>
  {
    Responded(r.status, Returned(r.body))
  }

  /** Every handler failure is a 500, so `fetchAPI` turns it into an
      `Error` naming status 500 and a hook never sees a `success=false`
      envelope from these handlers: its own fail message is unreachable. */
  lemma {:induction false} HandlerFailureReachesHookAsStatus<T>(r: Routes.Reply<T>, before: Cells<T>, failMessage: string)
    requires Routes.WellFormed(r)
    ensures r.body.success ==> FetchApi(Deliver(r)) == Returned(r.body)
    ensures !r.body.success ==>
              Settled(before, FetchApi(Deliver(r)), failMessage)
              == Cells(before.payload, false, Some("API request failed: 500"))
  {
    if !r.body.success {
      assert NatToString(500) == "500" by {
        assert NatToString(5) == "5";
        assert NatToString(50) == NatToString(5) + "0";
      }
      assert RequestFailedPrefix + NatToString(500) == "API request failed: 500";
    }
  }

  /** End to end: a products hook loading GET /api/products over an
      unconfigured service ends with the three mock products, loading
      false and its error as it was. */
  lemma ProductsHookOverMockService(before: Cells<seq<Product>>, q: Sanity.Outcome<seq<Product>>, failMessage: string)
    ensures var reply := Routes.ProductsGet(Returned(Sanity.FetchProducts(Sanity.SanityService(None), q)));
            Settled(before, FetchApi(Deliver(reply)), failMessage)
            == Cells(Sanity.MockProducts(), false, before.error)
  {
  }
}
