# Design Wear web layer: a Dafny model of its decision logic

The Design Wear web app is a Next.js layer. It serves product, category
and tax-rate data from a Sanity content backend, with static mock data
as a fallback. It also serves a `.env` file for the Flutter client, and a
Python script turns such a `.env` file into the Android
`google-services.json`. This project models the deterministic decisions
in that layer and proves properties about them:

- **Configuration** (`config.dfy`, module `AppConfig`). `isConfigured`,
  `defaultConfig` and `goKwikConfig` are functions of an environment map.
  A variable missing from the map is unset. JavaScript's `v || d` on
  strings (`Core.StringOr`, `AppConfig.EnvOr`) treats an empty value
  as unset.
- **Data service** (`sanity.ts` → `sanity.dfy`, module `Sanity`). A
  service either has a client or has none. The client exists exactly when
  the environment is configured. Each backend query is an input outcome:
  `Ok(v)`, `Falsy` or `Throws`. Each of the five reads decides between
  that outcome and the mock data.
- **Route handlers** (`routes.dfy`, module `Routes`). Each handler maps
  what the service returned or threw to a status code and a
  `{data, success, message?, error?}` envelope. The `flutter-env` handler
  (`flutterenv.dfy`, module `FlutterEnv`) renders its `.env` text from an
  environment map through a template of comment, blank and `KEY=value`
  rows.
- **Client hooks** (`hooks.dfy`, module `Hooks`). A hook is a class with
  three fields: payload, `loading` and `error`. One effect run is a
  method call, and the HTTP outcome it receives is an input.
- **The firebase-config script** (`firebaseconfig.dfy`, module
  `FirebaseConfig`). The read loop is a method over the file's lines and
  is proved equal to a functional specification, `ParseFrom`. The
  projection builds a JSON document. `pytext.dfy` models the Python text
  behaviour the script relies on: `strip()`, `split` and text-mode
  newline handling.
- **The round trip** (`envroundtrip.dfy`). When the script reads the file
  that `GET /api/flutter-env` serves, it gets back every one of the
  eighteen variables, each with the value the handler rendered, provided
  no server value holds a line break (`\n` or `\r`) or ends in
  whitespace. A value that ends in whitespace loses it, because the script
  strips each line (`EnvRoundTrip.TrailingSpaceIsLost`).

Prices and tax rates are only copied, so they are `real`. Strings are
`seq<char>`.

Behaviour of the code worth noting:

- The hooks do not clear `error` on a success. The success branch has no
  `setError`, so an error that was set stays set (`Hooks.Settled`).
- A failure envelope's `error` can be the empty string, because it is
  `error.message` of an `Error('')` (`Routes.EmptyErrorMessagePassesThrough`).
- A stored tax rate of `0` is falsy in JavaScript. `fetchTaxRate` therefore
  returns 18.0 for it (`Sanity.FetchTaxRate`).
- The service absorbs every backend failure. So when the list and
  tax-rate handlers are fed by the service, they never reach their 500
  branch (`Routes.HandlersOverServiceSucceed`). Every handler failure is
  a 500, so `fetchAPI` turns it into an exception, and a hook never sees
  a `success=false` envelope from these handlers
  (`Hooks.HandlerFailureReachesHookAsStatus`).

## Model

| member | source | states |
|---|---|---|
| `AppConfig.EnvOr` | web-next/src/config/app.ts:41-47 | `process.env.K \|\| d` is the variable's value when it is set and non-empty, and otherwise the fallback |
| `AppConfig.MissingVars` | web-next/src/config/app.ts:19-25 | a required variable is listed exactly when it is unset, empty or the placeholder; the list is no longer than the required list |
| `AppConfig.IsConfigured` | web-next/src/config/app.ts:18-36 | false exactly when `SANITY_PROJECT_ID` is unset, empty, or `'your_sanity_project_id_here'` |
| `AppConfig.DefaultConfig` | web-next/src/config/app.ts:39-48 | projectId defaults to `''`, dataset to `'production'`, appName to `'Design Wear'`, environment to `'development'`; apiVersion is always `'2023-05-03'`; isDebug holds exactly when NODE_ENV is `'development'`; a configured environment gives a real project id |
| `AppConfig.UnsetNodeEnvIsDevelopmentButNotDebug` | web-next/src/config/app.ts:46-47 | with NODE_ENV unset, `environment` reads `'development'` while `isDebug` is false |
| `AppConfig.ConfiguredProjectIdIsCarried` | web-next/src/config/app.ts:36-41 | when configured, `defaultConfig.sanity.projectId` is the environment's project id |
| `AppConfig.GoKwik` | web-next/src/config/app.ts:59-65 | merchantId and apiKey default to `''` and environment to `'sandbox'`; isSandbox holds exactly when GOKWIK_ENVIRONMENT is not `'production'`, and so agrees with `environment`; enableLogging holds exactly when DEBUG_MODE is `'true'` |
| `AppConfig.GoKwikUnsetDefaults` | web-next/src/config/app.ts:59-65 | with nothing set, the GoKwik config is sandbox, without logging and with empty credentials |
| `Sanity.ClientFor` | web-next/src/services/sanity.ts:6-11 | a client exists exactly when `isConfigured`; it carries the configured project id, `defaultConfig`'s dataset and api version, and the CDN off |
| `Sanity.ClientIffConfigured` | web-next/src/services/sanity.ts:6-23 | `checkConfiguration` of the singleton service holds exactly when the environment is configured |
| `Sanity.InCategory` | web-next/src/services/sanity.ts:77 | the in-memory filter keeps exactly the products whose `categoryId` equals the argument |
| `Sanity.InCategoryDistributes` | web-next/src/services/sanity.ts:77 | the filter keeps order: filtering a concatenation is the concatenation of the filtered parts |
| `Sanity.FirstWithId` | web-next/src/services/sanity.ts:103 | `find(...) \|\| null` gives the first product with the id, or none when no product has it |
| `Sanity.FetchProducts` | web-next/src/services/sanity.ts:25-50 | mock products when unconfigured or when the query throws; `[]` for a falsy result; otherwise the backend result |
| `Sanity.FetchCategories` | web-next/src/services/sanity.ts:52-73 | mock categories when unconfigured or when the query throws; `[]` for a falsy result; otherwise the backend result |
| `Sanity.FetchProductsByCategory` | web-next/src/services/sanity.ts:75-99 | the fallback holds exactly the mock products of that category; `[]` for a falsy result; otherwise the backend result |
| `Sanity.FetchProductById` | web-next/src/services/sanity.ts:101-125 | the fallback is a mock product carrying the id, or none exactly when no mock product has it; `null` for a falsy result; otherwise the backend product |
| `Sanity.FetchTaxRate` | web-next/src/services/sanity.ts:127-140 | 18.0 when unconfigured, when the query throws, when the result is falsy, and for a stored 0; otherwise the backend value; never 0 |
| `Sanity.UnconfiguredIgnoresBackend` | web-next/src/services/sanity.ts:17-29 | without a client, no read depends on the query outcome, since no query is issued |
| `Sanity.ThrowsActsAsUnconfigured` | web-next/src/services/sanity.ts:46-49 | for each of the five reads, a throwing query gives exactly the unconfigured result for the same argument |
| `Sanity.MockDataConsistent` | web-next/src/services/sanity.ts:143-194 | three mock products with distinct ids and two mock categories; every product's category is a mock category |
| `Sanity.MockByCategory` | web-next/src/services/sanity.ts:77 | the fallback for `mock-category-1` is products 1 and 2 in order; `mock-category-2` gives product 3; an unknown id gives `[]` |
| `Sanity.ByCategoryFallbackWithinProducts` | web-next/src/services/sanity.ts:28 | every product of the by-category fallback is in the `fetchProducts` fallback |
| `Sanity.MockById` | web-next/src/services/sanity.ts:103 | the by-id fallback finds each mock product by its own id |
| `Core.DecimalRoundTrip` | web-next/src/app/api/products/route.ts:12 | the decimal text of a count, as in `${products.length}`, reads back as that count |
| `Routes.CountMessageRecoversCount` | web-next/src/app/api/categories/route.ts:12 | for any suffix, the count N reads back from `Fetched N` followed by that suffix |
| `Routes.ThreeProductsMessage` | web-next/src/app/api/products/route.ts:12 | three products are reported as `Fetched 3 products successfully` |
| `Routes.ProductsGet` | web-next/src/app/api/products/route.ts:5-25 | success gives 200, the service result as data, the message `Fetched <n> products successfully` with n its length in decimal, and no error; an exception gives 500, `data=[]`, the exception message or `'Unknown error occurred'`, and no message |
| `Routes.ProductsPost` | web-next/src/app/api/products/route.ts:28-51 | the parsed body is echoed as data with `'Product operation completed'`; a parse failure gives 500, `data={}` and the error |
| `Routes.CategoriesGet` | web-next/src/app/api/categories/route.ts:5-25 | success gives 200, the service result and the message `Fetched <n> categories successfully` with n its length in decimal; an exception gives 500, `data=[]` and the error, with no message |
| `Routes.TaxRateGet` | web-next/src/app/api/settings/tax-rate/route.ts:5-25 | `data.taxRate` is present on both paths: the service's value on success, 18.0 on failure; failure is 500 with the exception message or the generic one |
| `Routes.FlutterPost` | web-next/src/app/api/flutter/route.ts:4-23 | success echoes the parsed body with `'Message received from Flutter'`; failure is 500 with `'Failed to process Flutter message'` |
| `Routes.FlutterFailureIgnoresException` | web-next/src/app/api/flutter/route.ts:17-22 | the flutter failure reply does not depend on what was thrown |
| `Routes.EmptyErrorMessagePassesThrough` | web-next/src/app/api/products/route.ts:20 | an `Error('')` gives a failure envelope whose error is the empty string |
| `Routes.HandlersOverServiceSucceed` | web-next/src/app/api/products/route.ts:6-15 | fed by the service, the products, categories and tax-rate handlers always give 200 with the service's result |
| `Routes.UnconfiguredProductsMessage` | web-next/src/app/api/products/route.ts:12 | unconfigured, GET /api/products reports `Fetched 3 products successfully` |
| `Hooks.FetchApi` | web-next/src/hooks/useApi.ts:12-20 | a network error propagates; an ok response gives its parsed body; a non-ok status raises an `Error` whose message is exactly `API request failed: ` followed by the status in decimal, from which the status reads back |
| `Hooks.ApiBaseUrl` | web-next/src/hooks/useApi.ts:9 | the request base is `NEXT_PUBLIC_API_URL` when set and non-empty, else `/api` |
| `Hooks.Settled` | web-next/src/hooks/useApi.ts:29-43 | after a load, loading is false; success sets the payload to `data` and leaves the error as it was; `success=false` keeps the payload and sets the error to `response.error` or the hook's message; an exception keeps the payload and sets the error to its message or `'Unknown error'`; a set error stays set |
| `Hooks.Hook.constructor` | web-next/src/hooks/useApi.ts:24-26 | a hook starts with its initial payload, loading true and no error |
| `Hooks.Hook.Load` | web-next/src/hooks/useApi.ts:29-43 | the new cells are `Settled` of the old cells and the `fetchAPI` outcome |
| `Hooks.Hook.Skip` | web-next/src/hooks/useApi.ts:85-89 | the payload is reset and loading cleared; the error is untouched |
| `Hooks.UseProducts` | web-next/src/hooks/useApi.ts:23-26 | the products hook starts with `[]`, loading true, no error, and fail message `'Failed to fetch products'` |
| `Hooks.UseCategories` | web-next/src/hooks/useApi.ts:51-54 | the categories hook starts with `[]`, loading true, no error, and fail message `'Failed to fetch categories'` |
| `Hooks.UseProduct` | web-next/src/hooks/useApi.ts:79-82 | the product hook starts with `null`, loading true, no error, and fail message `'Failed to fetch product'` |
| `Hooks.UseProductsByCategory` | web-next/src/hooks/useApi.ts:113-116 | the by-category hook starts with `[]`, loading true, no error, and fail message `'Failed to fetch products'` |
| `Hooks.UseTaxRate` | web-next/src/hooks/useApi.ts:147-150 | the tax-rate hook starts with 18.0, loading true, no error, and fail message `'Failed to fetch tax rate'` |
| `Hooks.RunListEffect` | web-next/src/hooks/useApi.ts:28-46 | requests the base URL of the environment followed by the endpoint, and settles the cells from the outcome |
| `Hooks.RunProductsEffect` | web-next/src/hooks/useApi.ts:28-46 | the products hook requests `/products` under the base URL and settles its cells from the outcome |
| `Hooks.RunCategoriesEffect` | web-next/src/hooks/useApi.ts:56-74 | the categories hook requests `/categories` under the base URL and settles its cells from the outcome |
| `Hooks.RunProductEffect` | web-next/src/hooks/useApi.ts:84-108 | a null or empty id resets the product to `null` and clears loading with no request; otherwise it requests `/products/<id>` under the base URL and settles the cells |
| `Hooks.RunProductsByCategoryEffect` | web-next/src/hooks/useApi.ts:118-142 | a null or empty id resets the list to `[]` and clears loading with no request; otherwise it requests `/categories/<id>/products` under the base URL and settles the cells |
| `Hooks.RunTaxRateEffect` | web-next/src/hooks/useApi.ts:152-170 | requests `/settings/tax-rate` under the base URL; a success sets the payload to `response.data.taxRate` |
| `Hooks.HandlerFailureReachesHookAsStatus` | web-next/src/hooks/useApi.ts:15-17 | a handler's failure reply reaches a hook as `API request failed: 500`, never as a `success=false` envelope |
| `Hooks.ProductsHookOverMockService` | web-next/src/hooks/useApi.ts:32-34 | a products hook over an unconfigured service ends with the three mock products, loading false and its error unchanged |
| `FlutterEnv.RenderLine` | web-next/src/app/api/flutter-env/route.ts:5-37 | a comment row is its text, a blank row is empty, and an entry is `KEY=` followed by the variable's value when set and non-empty, else by its literal default |
| `FlutterEnv.RowsRendered` | web-next/src/app/api/flutter-env/route.ts:4-38 | the file has one row per template row, and each row is its template row rendered against the environment as above |
| `FlutterEnv.KeysDistinct` | web-next/src/app/api/flutter-env/route.ts:5-37 | the eighteen variable names are pairwise different |
| `FlutterEnv.TemplateNamesEachKeyOnce` | web-next/src/app/api/flutter-env/route.ts:5-37 | the file names the eighteen variables exactly once each, in a fixed order |
| `FlutterEnv.TemplateWellFormed` | web-next/src/app/api/flutter-env/route.ts:4-38 | every comment row starts with `#`, every key is a variable name, and every literal default is plain printable text |
| `FlutterEnv.RenderedEntry` | web-next/src/app/api/flutter-env/route.ts:5-37 | a variable renders as its value when set and non-empty, else as its literal default; a key with an empty default renders as `KEY=` when unset |
| `FlutterEnv.RowsAreCommentsOrAssignments` | web-next/src/app/api/flutter-env/route.ts:4-38 | every row is blank, a `#` comment, or `KEY=VALUE` with one of the eighteen keys |
| `FlutterEnv.FlutterEnvGet` | web-next/src/app/api/flutter-env/route.ts:40-45 | status 200, the rendered body, and headers `Content-Type: text/plain` and `Cache-Control: no-store, max-age=0` |
| `FlutterEnv.HeadersConstant` | web-next/src/app/api/flutter-env/route.ts:40-45 | the headers do not depend on the environment |
| `PyText.Strip` | scripts/generate_firebase_config.py:15 | the stripped line neither starts nor ends with whitespace |
| `PyText.StripTrims` | scripts/generate_firebase_config.py:15 | `strip()` removes whitespace at both ends and nothing else |
| `PyText.StripKeeps` | scripts/generate_firebase_config.py:15 | a line that starts and ends with a non-space is left as it is |
| `PyText.SplitOn` | scripts/generate_firebase_config.py:14 | the file splits into at least one piece, none of which holds a newline |
| `PyText.SplitOnRebuilds` | scripts/generate_firebase_config.py:14 | the pieces joined with the separator give back the text: splitting loses nothing |
| `PyText.UniversalNewlinesKeeps` | scripts/generate_firebase_config.py:13 | text without `\r` is read unchanged in text mode |
| `PyText.JoinLinesLacks` | scripts/generate_firebase_config.py:14 | a character that is in no row and is not a newline is absent from the joined text |
| `PyText.SplitJoin` | scripts/generate_firebase_config.py:14 | splitting newline-terminated rows gives back the rows and one empty trailing piece |
| `FirebaseConfig.SplitFirst` | scripts/generate_firebase_config.py:17 | `split('=', 1)` fails exactly when the line has no `=`; otherwise the key holds no `=` and key, `=`, value rebuild the line |
| `FirebaseConfig.SplitFirstRecovers` | scripts/generate_firebase_config.py:17 | a key without `=` is split back off `key=value`, whatever the value holds |
| `FirebaseConfig.ParseLine` | scripts/generate_firebase_config.py:15-18 | blank and `#` lines change nothing; a line without `=` aborts with an unpacking error; no binding is ever removed |
| `FirebaseConfig.ParseFrom` | scripts/generate_firebase_config.py:14-18 | the read loop only adds or overwrites entries |
| `FirebaseConfig.LoadEnv` | scripts/generate_firebase_config.py:13-18 | the in-place loop ends with exactly what the specification `ParseFrom` gives |
| `FirebaseConfig.AbortNamesALine` | scripts/generate_firebase_config.py:17 | an abort names a stripped, non-blank, non-comment input line that holds no `=` |
| `FirebaseConfig.ParseFromAppend` | scripts/generate_firebase_config.py:14-18 | reading two parts one after the other is reading the whole |
| `FirebaseConfig.IgnoredLinesVanish` | scripts/generate_firebase_config.py:16 | blank and comment lines anywhere change nothing |
| `FirebaseConfig.SplitsAtFirstEquals` | scripts/generate_firebase_config.py:17-18 | `KEY=VALUE` binds KEY to VALUE, even when VALUE holds `=` |
| `FirebaseConfig.SpacesAroundEqualsKept` | scripts/generate_firebase_config.py:15-17 | `A = b` binds `"A "` to `" b"`: key and value are not trimmed |
| `FirebaseConfig.LaterDuplicateOverrides` | scripts/generate_firebase_config.py:18 | a later line for the same key overrides the earlier one |
| `FirebaseConfig.NoEqualsAborts` | scripts/generate_firebase_config.py:16-17 | a non-blank, non-comment line without `=` ends the read at that line, whatever follows |
| `FirebaseConfig.Get` | scripts/generate_firebase_config.py:24 | `env.get(K, "")` is the bound value, or `""` when K is unbound |
| `FirebaseConfig.GoogleServicesFields` | scripts/generate_firebase_config.py:22-50 | each field of the document is `env.get(K, "")` for its variable; `package_name` is `com.example.designwear` and `configuration_version` is `"1"` |
| `FirebaseConfig.OnlyFiveVariablesMatter` | scripts/generate_firebase_config.py:22-50 | the document depends only on the five Firebase variables it reads |
| `FirebaseConfig.GenerateGoogleServicesJson` | scripts/generate_firebase_config.py:4-50 | a missing `.env` stops before anything is built; an unpacking error aborts; otherwise the document is built from the parsed dictionary |
| `EnvRoundTrip.RoundTrip` | scripts/generate_firebase_config.py:13-18 | reading back a rendered well-formed template binds each entry to the value it was rendered with |
| `EnvRoundTrip.BoundAt` | web-next/src/app/api/flutter-env/route.ts:5-37 | with distinct keys, each entry's key is bound to its own rendered value |
| `EnvRoundTrip.ServedFileRoundTrip` | web-next/src/app/api/flutter-env/route.ts:4-38 | the script reads the served file without error; the dictionary holds exactly the eighteen keys, each with its rendered value (values with no line break or trailing whitespace) |
| `EnvRoundTrip.TrailingSpaceIsLost` | scripts/generate_firebase_config.py:15 | a value that ends in a blank loses it on the way back, because the line is stripped |
| `EnvRoundTrip.ServedFileConfiguresFirebase` | scripts/generate_firebase_config.py:22-50 | the document built from the served file holds the server's Firebase values, or the template's defaults |
| `EnvRoundTrip.UnconfiguredServerGivesDefaults` | web-next/src/app/api/flutter-env/route.ts:21-33 | with nothing set on the server, the document gets the built-in Firebase project, sender id and bucket, and empty Android keys |
| `EnvRoundTrip.GenerateFromServedFile` | scripts/generate_firebase_config.py:9-50 | the whole script run on the served file writes a document with those Firebase fields |

## Left out

- The Sanity client and its query language. A query is an abstract
  outcome (`Ok`, `Falsy`, `Throws`). The claim that the backend's
  category filter agrees with the in-memory one is about code that is not
  part of this model.
- Sanity.FetchProductsByCategory: its fallback contract states
  membership. The order-preserving result on the mock data is stated
  separately, by `Sanity.MockByCategory` and `Sanity.InCategoryDistributes`.
- Logging (`console.warn`, `console.error`, `console.log`, `print`). It
  has no effect on any returned value.
- `NextResponse`, JSON serialisation and `request.json()`. A parsed body
  is a `Json` value or a thrown value.
- `fetch`, HTTP, React effect scheduling and the re-run of an effect when
  its id changes. Each run is one method call. Races with unmounting are
  not modelled.
- `GET /api/flutter`. It returns the wall-clock time.
- The routes for `/products/{id}` and `/categories/{id}/products`
  (`web-next/src/app/api/products/[id]/route.ts`,
  `web-next/src/app/api/categories/[id]/products/route.ts`). Their 400
  and 404 replies are not part of this model.
- `web-next/src/components/FlutterApp.tsx`, the pages,
  `web-next/next.config.ts` and `web-next/middleware.ts`. They are
  browser I/O, UI rendering and framework routing rules.
- The script's file handling. `os.path.exists` is a boolean input and the
  `.env` text is a string input. Writing `google-services.json` with
  `json.dump` is not modelled; the document is the result.
- `Cart`, `CartItem`, `CustomDesign` and `User` in
  `web-next/src/types/index.ts`. The logic modelled here does not use them.
- The TypeScript casts of `environment` to `'development' | 'staging' |
  'production'` (`web-next/src/config/app.ts:45-47`) and of GoKwik's
  `environment` to `'sandbox' | 'production'`
  (`web-next/src/config/app.ts:59-65`). They are not checked at run time,
  so `AppConfig.DefaultConfig` and `AppConfig.GoKwik` keep any string.
