/** Endpoints: the table of Square REST endpoints and the two URL builders. */
module Endpoints {
  import opened Php

  datatype Endpoint = Endpoint(verb: string, url: string)

  /** The seven known keys and their (method, url). */
  const Table: map<string, Endpoint> := map[
    "PAYMENTS" := Endpoint("POST", "/v2/payments"),
    "REFUNDS" := Endpoint("POST", "/v2/refunds"),
    "CUSTOMERS" := Endpoint("POST", "/v2/customers"),
    "ORDERS" := Endpoint("POST", "/v2/orders"),
    "CHECKOUT" := Endpoint("POST", "/v2/checkout"),
    "CARDS" := Endpoint("POST", "/v2/cards"),
    "LOCATIONS" := Endpoint("GET", "/v2/locations")]

  /** getEndpoint: an unknown key reads null, which the `array` return type rejects. */
  function GetEndpoint(key: string): (r: Outcome<Endpoint>)
    ensures r.Ok? <==> key in {"PAYMENTS", "REFUNDS", "CUSTOMERS", "ORDERS", "CHECKOUT", "CARDS", "LOCATIONS"}
    ensures r.Ok? ==> (r.value.verb == "GET" <==> key == "LOCATIONS")
    ensures r.Ok? ==> r.value.verb == "GET" || r.value.verb == "POST"
  {
    if key in Table then Ok(Table[key]) else Thrown("TypeError")
  }

  /** getUrl: the table's method; the base url, followed by '/' and the id when the
      id is truthy (so '' and '0' give the base url). */
  function GetUrl(key: string, id: Option<string>): (r: Outcome<Endpoint>)
    ensures r.Ok? <==> GetEndpoint(key).Ok?
    ensures r.Ok? ==> r.value.verb == GetEndpoint(key).value.verb
    ensures r.Ok? && (id.None? || !Truthy(Str(id.value))) ==> r.value.url == GetEndpoint(key).value.url
    ensures r.Ok? && id.Some? && Truthy(Str(id.value)) ==> r.value.url == GetEndpoint(key).value.url + "/" + id.value
  {
    match GetEndpoint(key)
    case Thrown(e) => Thrown(e)
    case Ok(endpoint) =>
      Ok(Endpoint(endpoint.verb,
        if id.Some? && Truthy(Str(id.value)) then endpoint.url + "/" + id.value else endpoint.url))
  }

  /** The path segments: each parameter cast to string and prefixed by '/'. */
  function Segments(params: seq<Value>): string {
    if params == [] then "" else Segments(params[..|params| - 1]) + "/" + ToStr(params[|params| - 1])
  }

  lemma {:induction false} SegmentsAppend(a: seq<Value>, b: seq<Value>)
    ensures Segments(a + b) == Segments(a) + Segments(b)
    decreases |b|
  {
    if b == [] {
      assert a + b == a;
    } else {
      var b' := b[..|b| - 1];
      assert (a + b)[..|a + b| - 1] == a + b';
      SegmentsAppend(a, b');
    }
  }

  /** A query string: `key=value` pairs joined by '&' (http_build_query without its
      URL encoding). */
  function QueryString(query: seq<(string, string)>): string {
    if query == [] then ""
    else if |query| == 1 then query[0].0 + "=" + query[0].1
    else query[0].0 + "=" + query[0].1 + "&" + QueryString(query[1..])
  }

  /** The url getUrlDynamicParam builds. */
  function DynamicUrl(base: string, params: seq<Value>, query: seq<(string, string)>): string {
    base + Segments(params) + (if query != [] then "?" + QueryString(query) else "")
  }

  /** getUrlDynamicParam: `params` null or `[]` adds no segment, and `query` null or
      `[]` adds no query string. */
  method GetUrlDynamicParam(key: string, params: seq<Value>, query: seq<(string, string)>)
    returns (r: Outcome<Endpoint>)
    ensures r.Ok? <==> GetEndpoint(key).Ok?
    ensures r.Ok? ==> r.value == Endpoint(GetEndpoint(key).value.verb,
      DynamicUrl(GetEndpoint(key).value.url, params, query))
  {
    var details := GetEndpoint(key);
    if details.Thrown? {
      return Thrown(details.error);
    }
    var builder := "";
    for i := 0 to |params|
      invariant builder == Segments(params[..i])
    {
      assert params[..i + 1] == params[..i] + [params[i]];
      SegmentsAppend(params[..i], [params[i]]);
      assert Segments([params[i]]) == "" + "/" + ToStr(params[i]);
      builder := builder + "/" + ToStr(params[i]);
    }
    assert params[..|params|] == params;
    var queryString := if query != [] then "?" + QueryString(query) else "";
    r := Ok(Endpoint(details.value.verb, details.value.url + builder + queryString));
  }

  /** Without parameters and query, the dynamic builder gives getUrl's result for no
      id; with the single truthy id as parameter, getUrl's result for that id. */
  lemma DynamicAgreesWithGetUrl(key: string, id: string)
    requires GetEndpoint(key).Ok?
    ensures DynamicUrl(GetEndpoint(key).value.url, [], []) == GetUrl(key, None).value.url
    ensures Truthy(Str(id)) ==> DynamicUrl(GetEndpoint(key).value.url, [Str(id)], []) == GetUrl(key, Some(id)).value.url
  {
    assert Segments([Str(id)]) == "" + "/" + id;
  }
}
