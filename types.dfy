/** The records the web layer passes around (web-next/src/types/index.ts). */
module Types {
  import opened Core

  /** A product as the content backend and the mock data describe it. The
      price is only copied, never computed. */
  datatype Product = Product(
    id: string,
    title: string,
    slug: string,
    description: string,
    price: real,
    imageUrl: Option<string>,
    categoryId: string,
    stockStatus: string)

  datatype Category = Category(
    id: string,
    title: string,
    slug: string,
    description: string,
    imageUrl: Option<string>)

  /** The uniform envelope `{data, success, message?, error?}`; an absent
      optional field is `None`. */
  datatype ApiResponse<+T> = ApiResponse(
    data: T,
    success: bool,
    message: Option<string>,
    error: Option<string>)

  /** The payload `{taxRate}` of the tax-rate endpoint. */
  datatype TaxRateData = TaxRateData(taxRate: real)

  /** A JSON value, for request bodies that are echoed back and for the
      generated configuration file. Object members keep their order. */
  datatype Json =
    | JNull
    | JBool(b: bool)
    | JNumber(n: real)
    | JString(s: string)
    | JArray(items: seq<Json>)
    | JObject(members: seq<(string, Json)>)

  /** The value of the first member named `key` of an object. */
  function Member(j: Json, key: string): (r: Option<Json>)
    ensures r.Some? ==> j.JObject? && exists i :: 0 <= i < |j.members| && j.members[i] == (key, r.value)
    ensures r.None? ==> !j.JObject? || forall i :: 0 <= i < |j.members| ==> j.members[i].0 != key
  {
    if j.JObject? then MemberIn(j.members, key) else None
  }

  function MemberIn(ms: seq<(string, Json)>, key: string): (r: Option<Json>)
    ensures r.Some? ==> exists i :: 0 <= i < |ms| && ms[i] == (key, r.value)
    ensures r.None? ==> forall i :: 0 <= i < |ms| ==> ms[i].0 != key
  {
    if ms == [] then None
    else if ms[0].0 == key then Some(ms[0].1)
    else MemberIn(ms[1..], key)
  }
}
