/** The route handlers under web-next/src/app/api/: each maps what the
    service gave (or threw) to an envelope and a status code. */
module Routes {
  import opened Core
  import opened Types
  import Sanity

  /** A JSON reply: the status code and the body. */
  datatype Reply<+T> = Reply(status: nat, body: ApiResponse<T>)

  const OkStatus: nat := 200
  const ServerErrorStatus: nat := 500
  const UnknownErrorOccurred := "Unknown error occurred"

  /** The envelope rule every handler here follows: a success has status
      200, a message and no error; a failure has status 500, an error and no
      message. */
  predicate WellFormed<T>(r: Reply<T>)
  {
    && (r.body.success ==> r.status == OkStatus && r.body.message.Some? && r.body.error.None?)
    && (!r.body.success ==> r.status == ServerErrorStatus && r.body.error.Some? && r.body.message.None?)
  }

  function Succeeded<T>(data: T, message: string): Reply<T>
  {
    Reply(OkStatus, ApiResponse(data, true, Some(message), None))
  }

  function Failed<T>(data: T, e: Thrown): Reply<T>
  {
    Reply(ServerErrorStatus, ApiResponse(data, false, None, Some(MessageOf(e, UnknownErrorOccurred))))
  }

  /** `Fetched ${n}` followed by a fixed suffix such as ` products successfully`. */
  function CountMessage(n: nat, suffix: string): string
  {
    "Fetched " + NatToString(n) + suffix
  }

  /** The count a list handler's message reports can be read back from it. */
  lemma CountMessageRecoversCount(n: nat, suffix: string)
    ensures NumberBetween(CountMessage(n, suffix), "Fetched ", suffix) == Some(n)
  {
    NumberBetweenRoundTrip("Fetched ", n, suffix);
  }

  const ProductsSuffix := " products successfully"
  const CategoriesSuffix := " categories successfully"

  /** GET /api/products (products/route.ts). */
  function ProductsGet(fetched: Attempt<seq<Product>>): (r: Reply<seq<Product>>)
    ensures WellFormed(r)
    ensures r.body.success <==> fetched.Returned?
    ensures fetched.Returned? ==> r.body.data == fetched.value
    ensures fetched.Returned? ==>
              r.body.message == Some("Fetched " + NatToString(|fetched.value|) + " products successfully")
    ensures fetched.Raised? ==> r.body.data == [] && r.body.error == Some(MessageOf(fetched.thrown, UnknownErrorOccurred))
  {
    match fetched
    case Returned(products) =>
      Succeeded(products, CountMessage(|products|, ProductsSuffix))
    case Raised(e) => Failed([], e)
  }

  /** POST /api/products: echoes the parsed body. */
  function ProductsPost(parsed: Attempt<Json>): (r: Reply<Json>)
    ensures WellFormed(r)
    ensures r.body.success <==> parsed.Returned?
    ensures parsed.Returned? ==> r.body.data == parsed.value && r.body.message == Some("Product operation completed")
    ensures parsed.Raised? ==> r.body.data == JObject([]) && r.body.error == Some(MessageOf(parsed.thrown, UnknownErrorOccurred))
  {
    match parsed
    case Returned(body) => Succeeded(body, "Product operation completed")
    case Raised(e) => Failed(JObject([]), e)
  }

  /** GET /api/categories (categories/route.ts). */
  function CategoriesGet(fetched: Attempt<seq<Category>>): (r: Reply<seq<Category>>)
    ensures WellFormed(r)
    ensures r.body.success <==> fetched.Returned?
    ensures fetched.Returned? ==> r.body.data == fetched.value
    ensures fetched.Returned? ==>
              r.body.message == Some("Fetched " + NatToString(|fetched.value|) + " categories successfully")
    ensures fetched.Raised? ==> r.body.data == [] && r.body.error == Some(MessageOf(fetched.thrown, UnknownErrorOccurred))
  {
    match fetched
    case Returned(categories) =>
      Succeeded(categories, CountMessage(|categories|, CategoriesSuffix))
    case Raised(e) => Failed([], e)
  }

  /** GET /api/settings/tax-rate: the payload `{taxRate}` is there on both
      paths, 18.0 on failure. */
  function TaxRateGet(fetched: Attempt<real>): (r: Reply<TaxRateData>)
    ensures WellFormed(r)
    ensures r.body.success <==> fetched.Returned?
    ensures r.body.data.taxRate == if fetched.Returned? then fetched.value else Sanity.DefaultTaxRate
    ensures fetched.Returned? ==> r.body.message == Some("Tax rate fetched successfully")
    ensures fetched.Raised? ==> r.body.error == Some(MessageOf(fetched.thrown, UnknownErrorOccurred))
  {
    match fetched
    case Returned(taxRate) => Succeeded(TaxRateData(taxRate), "Tax rate fetched successfully")
    case Raised(e) => Failed(TaxRateData(Sanity.DefaultTaxRate), e)
  }

  /** The reply of POST /api/flutter, whose shape is not an ApiResponse. */
  datatype FlutterReply = FlutterReply(
    status: nat,
    success: bool,
    message: Option<string>,
    echo: Option<Json>,
    error: Option<string>)

  const FlutterFailure := "Failed to process Flutter message"

  /** POST /api/flutter (flutter/route.ts): the parsed body is echoed back;
      any parse failure gives one fixed error. */
  function FlutterPost(parsed: Attempt<Json>): (r: FlutterReply)
    ensures r.success <==> parsed.Returned?
    ensures r.success ==> r.status == OkStatus && r.echo == Some(parsed.value)
                          && r.message == Some("Message received from Flutter") && r.error.None?
    ensures !r.success ==> r.status == ServerErrorStatus && r.error == Some(FlutterFailure)
                           && r.message.None? && r.echo.None?
  {
    match parsed
    case Returned(data) => FlutterReply(OkStatus, true, Some("Message received from Flutter"), Some(data), None)
    case Raised(_) => FlutterReply(ServerErrorStatus, false, None, None, Some(FlutterFailure))
  }

  /** The flutter failure does not depend on what was thrown. */
  lemma FlutterFailureIgnoresException(e1: Thrown, e2: Thrown)
    ensures FlutterPost(Raised(e1)) == FlutterPost(Raised(e2))
  {
  }

  /** An `Error` with an empty message gives a failure envelope whose error
      is the empty string: the handlers do not guarantee a non-empty error. */
  lemma EmptyErrorMessagePassesThrough()
    ensures ProductsGet(Raised(ErrorInstance(""))).body.error == Some("")
  {
  }

  /** The service absorbs every backend failure, so the list and tax-rate
      handlers, fed by it, always succeed with the service's result and
      never reach their 500 branch. */
  lemma HandlersOverServiceSucceed(svc: Sanity.SanityService,
                                   p: Sanity.Outcome<seq<Product>>,
                                   c: Sanity.Outcome<seq<Category>>,
                                   t: Sanity.Outcome<real>)
    ensures var r := ProductsGet(Returned(Sanity.FetchProducts(svc, p)));
            r.status == OkStatus && r.body.success && r.body.data == Sanity.FetchProducts(svc, p)
    ensures var r := CategoriesGet(Returned(Sanity.FetchCategories(svc, c)));
            r.status == OkStatus && r.body.success && r.body.data == Sanity.FetchCategories(svc, c)
    ensures var r := TaxRateGet(Returned(Sanity.FetchTaxRate(svc, t)));
            r.status == OkStatus && r.body.success && r.body.data.taxRate == Sanity.FetchTaxRate(svc, t)
  {
  }

  /** Unconfigured, GET /api/products reports the three mock products. */
  lemma UnconfiguredProductsMessage(p: Sanity.Outcome<seq<Product>>)
    ensures ProductsGet(Returned(Sanity.FetchProducts(Sanity.SanityService(None), p))).body.message
            == Some("Fetched 3 products successfully")
  {
    var products := Sanity.FetchProducts(Sanity.SanityService(None), p);
    assert |products| == 3;
    ThreeProductsMessage();
  }

  lemma ThreeProductsMessage()
    ensures CountMessage(3, ProductsSuffix) == "Fetched 3 products successfully"
  {
    ThreeIsWritten();
    calc {
      CountMessage(3, ProductsSuffix);
      "Fetched " + NatToString(3) + ProductsSuffix;
      "Fetched " + "3" + " products successfully";
      "Fetched 3 products successfully";
    }
  }

  lemma ThreeIsWritten()
    ensures NatToString(3) == "3"
  {
  }
}
