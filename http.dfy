/** The JSON values, HTTP responses and URLs exchanged between the
    payment server and the browser client. */
module Http {
  import opened Wrappers

  /** The JSON values that occur in request and response bodies. */
  datatype Json = JNull | JBool(b: bool) | JNum(n: int) | JStr(s: string)

  /** A JSON object; a key that is absent reads as `undefined`. */
  type JsonObject = map<string, Json>

  /** JavaScript truthiness of a JSON value. */
  predicate Truthy(j: Json)
  {
    match j
    case JNull => false
    case JBool(b) => b
    case JNum(n) => n != 0
    case JStr(s) => s != ""
  }

  /** `o[key]` is present and truthy, as `if (data.key)` tests it. */
  predicate FieldTruthy(o: JsonObject, key: string)
  {
    key in o && Truthy(o[key])
  }

  /** `o.key === s` for a string `s`. */
  predicate FieldIs(o: JsonObject, key: string, s: string)
  {
    key in o && o[key] == JStr(s)
  }

  /** A response body: a JSON object (`res.json`) or plain text
      (`res.send`, `res.sendStatus`). */
  datatype Body = JsonBody(fields: JsonObject) | TextBody(text: string)

  datatype Response = Response(status: int, body: Body)

  /** `res.sendStatus(code)`: the status code with its reason phrase as
      the text body. */
  function SendStatus(code: int): (r: Response)
    ensures r.status == code && r.body.TextBody?
  {
    Response(code, TextBody(if code == 200 then "OK" else if code == 400 then "Bad Request" else ""))
  }

  /** A URL as the browser sees it after parsing: origin, pathname and the
      ordered `key=value` pairs of the query string. */
  datatype Url = Url(origin: string, path: string, query: seq<(string, string)>)

  /** `new URLSearchParams(query).get(key)`: the value of the first pair
      with that key, or `null`. */
  function QueryGet(query: seq<(string, string)>, key: string): (r: Option<string>)
    ensures r.None? <==> forall k :: 0 <= k < |query| ==> query[k].0 != key
    ensures r.Some? ==> exists k :: 0 <= k < |query| && query[k] == (key, r.value) &&
                                    forall j :: 0 <= j < k ==> query[j].0 != key
  {
    if |query| == 0 then None
    else if query[0].0 == key then Some(query[0].1)
    else QueryGet(query[1..], key)
  }

  /** The result of `await fetch(...)` followed by `await res.json()` in
      the browser: the parsed object, or a throw (network failure, or a
      body that is not JSON). The status code is not inspected. */
  datatype FetchResult = FetchThrew | FetchReturned(data: JsonObject)

  /** What the browser's `fetch` + `res.json()` makes of a server
      response. */
  function Receive(resp: Response): (r: FetchResult)
    ensures r.FetchReturned? <==> resp.body.JsonBody?
    ensures r.FetchReturned? ==> r.data == resp.body.fields
  {
    match resp.body
    case JsonBody(o) => FetchReturned(o)
    case TextBody(_) => FetchThrew
  }
}
